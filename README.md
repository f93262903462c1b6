# Loading/value/error state cell

This project models the state cell that every data-binding hook of the
library builds on (`src/util/useLoadingValue.ts`). The cell holds the last
value, a loading flag and the last error. It changes only through a reducer
over four actions: `error`, `loading`, `reset` and `value`.

- `Values.dfy` holds the slot types. `Option` is an optional field such as
  `error?: E`. `Maybe` is an untyped JavaScript value: `undefined`, `null`
  or a payload. The `value` slot and the default use `Maybe`, because the
  source treats `null` and `undefined` alike when it decides whether to load
  (line 32) but stores the raw default (line 33).
- `LoadingValue.dfy` holds the pure part: `State`, `Action`, `DefaultState`
  and `Reduce`. It also holds `Run`, which folds a sequence of actions
  through the reducer the way `useReducer` does. Lemmas state each transition,
  the global invariant, idempotence, and how a settling action forgets what
  came before.
- `LoadingValueCell` is the cell `useLoadingValue` owns. Its methods
  `Reset`, `SetError`, `SetLoading` and `SetValue` dispatch one action each.
  A ghost history of dispatched actions ties the state to `Run` from the
  initial state.

The default producer `getDefaultValue` is an opaque callback that may return
something different on each call. The model therefore takes its result as a
parameter: the constructor takes the result that seeds the reducer's initial
state (lines 71-74), and `Reset` takes the result computed for that reset
(line 78). When no producer is given, callers pass `Undefined`.

A `null` default is stored as given, so creation yields `value = null` with
`loading = true` (lines 32-33); the model keeps this (`InitialState`).

## Model

| member | source | states |
|---|---|---|
| LoadingValue.DefaultState | src/util/useLoadingValue.ts:29-35 | the default state never holds an error, so it satisfies the invariant |
| LoadingValue.Reduce | src/util/useLoadingValue.ts:37-62 | from any prior state, every action yields a state where an error never coexists with a value or with loading |
| LoadingValue.InitialState | src/util/useLoadingValue.ts:29-35 | at creation the cell is loading exactly when the default is `undefined` or `null`; the value is the default as given; there is no error |
| LoadingValue.ErrorTransition | src/util/useLoadingValue.ts:41-47 | `error(e)` shows `e`, stops loading and clears the value, whatever the prior state |
| LoadingValue.LoadingTransition | src/util/useLoadingValue.ts:48-53 | `loading` starts loading and clears the error, keeping the prior value |
| LoadingValue.ValueTransition | src/util/useLoadingValue.ts:56-62 | `value(v)` shows `v` (which may be `undefined`), stops loading and clears the error |
| LoadingValue.ResetTransition | src/util/useLoadingValue.ts:54-55 | `reset(d)` yields the default `d`, no error and never loading |
| LoadingValue.ResetIsNotInitialLoad | src/util/useLoadingValue.ts:29-35 | with an `undefined` or `null` default, creation is loading but a reset is not, so the two states differ |
| LoadingValue.SettlingForgetsState | src/util/useLoadingValue.ts:41-62 | `error`, `reset` and `value` each give a result that does not depend on the prior state |
| LoadingValue.ReduceIdempotent | src/util/useLoadingValue.ts:41-62 | dispatching any action twice equals dispatching it once |
| LoadingValue.LoadingThenValue | src/util/useLoadingValue.ts:48-62 | from any state, `loading` then `value(v)` ends with value `v`, not loading, no error |
| LoadingValue.Run | src/util/useLoadingValue.ts:72-75 | the state after dispatching the actions in order; after at least one dispatch it satisfies the invariant whatever the start state |
| LoadingValue.RunAppend | src/util/useLoadingValue.ts:72-75 | dispatching two sequences of actions one after the other equals dispatching their concatenation |
| LoadingValue.RunSnoc | src/util/useLoadingValue.ts:72-75 | dispatching one more action applies the reducer once more to the state reached so far |
| LoadingValue.RunConsistent | src/util/useLoadingValue.ts:37-62 | every run of actions from a consistent state ends in a consistent state |
| LoadingValue.ReachableConsistent | src/util/useLoadingValue.ts:71-75 | every state reachable from creation, with any default, satisfies the invariant |
| LoadingValue.HistoryForgotten | src/util/useLoadingValue.ts:41-62 | after an `error`, `reset` or `value` action, the actions dispatched before it and the start state no longer matter |
| LoadingValue.ResetForgetsHistory | src/util/useLoadingValue.ts:54-55 | after a reset the cell behaves as if freshly reset, whatever was dispatched before |
| LoadingValue.RepeatedAction | src/util/useLoadingValue.ts:41-62 | dispatching any action one or more times in a row equals dispatching it once |
| LoadingValue.LoadingValueCell.constructor | src/util/useLoadingValue.ts:71-75 | the cell starts in the initial default state with an empty history |
| LoadingValue.LoadingValueCell.Dispatch | src/util/useLoadingValue.ts:72-75 | the new state is the reducer applied to the old state; the action is appended to the history and the invariant is kept |
| LoadingValue.LoadingValueCell.Reset | src/util/useLoadingValue.ts:77-80 | the state becomes the freshly given default, not loading, no error |
| LoadingValue.LoadingValueCell.SetError | src/util/useLoadingValue.ts:82-84 | the state becomes the error with no value, not loading |
| LoadingValue.LoadingValueCell.SetLoading | src/util/useLoadingValue.ts:86-88 | the state becomes loading with no error and the old value kept |
| LoadingValue.LoadingValueCell.SetValue | src/util/useLoadingValue.ts:90-92 | the state becomes the given value, not loading, no error |

## Left out

- React plumbing (`useReducer`, `useCallback`, `useMemo`): `useCallback` and `useMemo` add only memoisation and stable callback identity. `useReducer` holds the state and applies dispatched actions, in order, when the component next renders; the model applies each action at once. `LoadingValueCell.state` is therefore the state the hook returns after the next render, and the out-of-date object seen between a dispatch and that render is not modelled.
- The producer's calls on later renders: line 71 calls `getDefaultValue()` on every render, but only the first result seeds the state and every later one is discarded. These extra calls are not modelled; they never change the state.
- The producer callback `getDefaultValue`: it is opaque and may return a different value on each call. Its result is a parameter of the constructor and of `Reset`.
- The reducer's `default:` branch: actions are a closed datatype, so that branch cannot be reached.
- LoadingValue.LoadingValueCell.SetError: the error is always stored as present. Passing `undefined` as the error, which JavaScript would allow, is not modelled.
- `src/util/useIsMounted.ts`: a React lifecycle flag with no logic of its own.
- The document subscription hooks (`useDocument`, `useDocumentOnce` and their data variants): `src/firestore/useDocument.ts` is not part of this model. Their implementation is not modelled; they depend on the document store and on asynchronous ordering.
- `src/test/firebase.ts` and `vite.config.ts`: emulator connection and build configuration.
