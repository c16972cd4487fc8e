# react-store `createStore`: dependency-keyed change detection

This project models the core of `createStore.js` in Dafny. `createStore.js` builds a store on
top of redux and immer. Its core is a change-detection layer that decides when a subscription
is notified:

- `getDepValue` resolves a dot-separated dependency path such as `"a.b.c"` against the state
  tree. It stops with `undefined` at the first falsy member, the last member included.
- `diff` resolves every dep of a subscription. It reports a change when some position is
  `!==` to the handler's previous snapshot. A position past the end of the snapshot reads as
  `undefined`.
- `subscribe` registers a listener. With non-empty deps, the listener compares against the
  handler's snapshot in the table `wm`. It invokes the handler only on a change and stores the
  new values either way. Without deps, the listener invokes the handler on every dispatch.
- `dispatch` wraps the updater in an action `{ type: type ?? '@@Update', updater }`. The
  reducer applies the updater when it is a function and keeps the state otherwise.

Files and modules:

- `values.dfy` (`Values`): JavaScript values with object identity, truthiness and `===`.
- `paths.dfy` (`Paths`): `split('.')`, optional chaining as a reference, the `getDepValue`
  result `DepValue`, and the loop `GetDepValue` proved against it.
- `diff.dfy` (`Diffing`): the resolved values `DepValues`, the change test `Differs`, and the
  loop `Diff` proved against them.
- `store.dfy` (`CreateStore`): actions, the reducer, one listener run (`Step`), one
  notification round (`Notify`), and the class `Store` with `Subscribe`, `Dispatch` and
  `GetState`. The loops `Listener` and `RunListeners` are proved against `Step` and `Notify`.
- `scenario.dfy` (`Scenario`): a client that subscribes to `"a.b"` and dispatches three times.

Modelling choices:

- A value is `undefined`, `null`, a boolean, an integer, a string, or an object. An object
  carries an identity, so `===` on objects compares references.
- An updater is a total function from state to state. `None` stands for an updater that is
  not a function.
- A handler is a number that stands for its identity. Each handler invocation is returned as a
  `Call` record holding the state it was given.
- `diff` reads `store.getState()` in the source. In the model, the state is passed to `Diff`
  as an argument.
- The notification loop belongs to redux and is not visible here. It is modelled as a loop
  over the listeners in registration order. An exception leaves the loop early and propagates
  out of `dispatch`. By then the new state is already stored.
- `getDepValue` indexes its root without a check, so it throws a TypeError on an `undefined`
  or `null` root. `GetDepValue` and `Diff` therefore require a root that is neither. The store
  does not require it: when a deps-subscribed listener runs against such a state, the round
  ends with `threw`. The default preloaded state, `null`, leads there.

`subscribe` seeds the handler's snapshot with `[]` (createStore.js:58), so on the first
dispatch after subscribing `diff` compares each value with `undefined`. The handler is
therefore invoked whenever some dep resolves to a defined value, even a value that dispatch
did not touch. In `Scenario.Client` the first dispatch changes only `c` and still invokes the
handler subscribed to `"a.b"` (see also `Diffing.FirstNotification`).

`getDepValue` sits under a comment saying it imitates optional chaining. It does so only up to
falsy values. `Paths.DepValueIsCollapsedChain` proves that it is
`root?.k0?.k1…` with every falsy result collapsed to `undefined`. As a consequence, a leaf that
changes between two falsy values, for example `0` to `false`, is not reported as a change
(`Paths.FalsyLeafChangeUnseen`).

## Model

| member | source | states |
|---|---|---|
| `Values.FalsyValues` | createStore.js:15 | exactly `undefined`, `null`, `false`, `0` and `""` fail the `!obj[key]` guard |
| `Values.StrictEqEquivalence` | createStore.js:42 | `!==` negates an equivalence: reflexive, symmetric, transitive, with objects compared by identity |
| `Paths.SplitPath` | createStore.js:14 | `dep.split('.')` yields at least one key, no key holds a dot, and joining the keys with `.` gives `dep` back |
| `Paths.SplitJoin` | createStore.js:14 | splitting a join of dot-free keys returns the keys |
| `Paths.DepValue` | createStore.js:13-19 | the resolved value is always `undefined` or truthy |
| `Paths.GetDepValue` | createStore.js:13-19 | the key loop returns `undefined` at the first key (the last included) whose member is falsy, and otherwise the member reached by following all keys, i.e. `DepValue`; its result is `undefined` or truthy |
| `Paths.DepValueIsCollapsedChain` | createStore.js:12-19 | the result equals optional chaining over the keys when that is truthy, and `undefined` otherwise |
| `Paths.FalsyLeafChangeUnseen` | createStore.js:15 | a leaf changing from `0` to `false` resolves to `undefined` both times, although the two leaves are `!==` |
| `Diffing.BaseAt` | createStore.js:42 | `baseDeps[index]` is the entry when in range and `undefined` past the end |
| `Diffing.DepValues` | createStore.js:37-41 | one value per dep, in dep order, entry i being the resolution of dep i |
| `Diffing.Diff` | createStore.js:33-48 | `depValues` holds exactly one resolved value per dep, in order, each dep resolved even after a difference is found; `diffed` holds iff some position is `!==` to the baseline entry |
| `Diffing.FirstNotification` | createStore.js:58-64 | against the initial `[]` snapshot, a change is reported iff some dep resolves to a value other than `undefined` |
| `Diffing.SameValuesNoChange` | createStore.js:42 | a snapshot as long as the values and pointwise `===` to them reports no change |
| `Diffing.NoChangeAgainstItself` | createStore.js:42 | values compared with themselves never report a change |
| `CreateStore.InitAction` | createStore.js:24-26 | redux's init action carries no updater |
| `CreateStore.UpdateAction` | createStore.js:50-55 | the action type is `'@@Update'` when `type` is `null` or `undefined` and `type` otherwise (so never nullish); the updater is passed through |
| `CreateStore.Reduce` | createStore.js:23-27 | the state is unchanged when the updater is not a function, and otherwise the updater's result |
| `CreateStore.Step` | createStore.js:59-72 | one listener run never drops a snapshot key |
| `CreateStore.Notify` | createStore.js:59-72 | one notification round never drops a snapshot key |
| `CreateStore.NotifyFacts` | createStore.js:59-72 | a round makes at most as many calls as there are subscriptions, only to subscribed handlers, each with the post-dispatch state; it throws iff the state is nullish and some subscription has deps, and then stores nothing |
| `CreateStore.CallsPerSubscription` | createStore.js:59-72 | a round invokes each handler at most as often as there are subscriptions registering it |
| `CreateStore.SnapshotsAfterNotify` | createStore.js:61-68 | after a round that did not throw, a deps-subscribed handler's snapshot is the freshly resolved values of its last deps, whether or not it was invoked; other handlers' snapshots are unchanged and none is added |
| `CreateStore.NotifyWithoutDeps` | createStore.js:69-71 | with no deps anywhere, every subscription's handler is invoked exactly once, in registration order, with the current state, and the table is unchanged |
| `CreateStore.InvocationCount` | createStore.js:60-71 | with distinct handlers, a handler without deps is invoked exactly once, and a handler with deps once if its deps changed against its snapshot and never otherwise |
| `CreateStore.SharedSnapshot` | createStore.js:58-68 | two subscriptions of one handler with the same deps share one snapshot, so the second never fires and the handler is invoked at most once |
| `CreateStore.SharedHandler` | createStore.js:58-68 | for two subscriptions of one handler with deps `d1` and `d2`, the second listener compares against the values the first has just stored, and the table ends with the values of `d2` |
| `CreateStore.AlternatingSnapshots` | createStore.js:58-68 | when the two deps of one handler resolve to values that differ, starting from the second one's values the handler is invoked twice and the round leaves the table it started from, so the same state invokes it twice on every dispatch |
| `CreateStore.SharedHandlerDifferentDeps` | createStore.js:58-68 | on `{ a: 1, b: 2 }` one handler subscribed with `["a"]` and with `["b"]` is invoked twice by a dispatch that changes nothing |
| `CreateStore.Listener` | createStore.js:59-72 | the listener closure computes exactly `Step`: the diff when deps are declared, the call when changed, and the snapshot overwrite |
| `CreateStore.RunListeners` | createStore.js:59-72 | running the listeners in order computes exactly `Notify`, including the early end on a throw |
| `CreateStore.Store.constructor` | createStore.js:21-27 | the init action leaves the preloaded state, with `undefined` replaced by the default `null`; no subscriptions, empty table |
| `CreateStore.Store.Default` | createStore.js:21 | without an argument the state is `null` |
| `CreateStore.Store.GetState` | createStore.js:116-118 | the getter returns the current state |
| `CreateStore.Store.Subscribe` | createStore.js:57-59 | appends the subscription; with non-empty deps resets the handler's snapshot to `[]`, otherwise leaves the table alone |
| `CreateStore.Store.Dispatch` | createStore.js:50-55 | the new state is the reducer applied to the `'@@Update'`-defaulted action; the calls, table and throw are those of one `Notify` round on the new state; every call gets the new state; without a throw each deps-subscribed handler's snapshot holds its freshly resolved values |
| `Scenario.DispatchTree` | createStore.js:50-72 | a dispatch that installs `{ a: { b }, c }` on a store subscribed to `["a.b"]` invokes the handler once with the new state iff `b` differs from the snapshot, and leaves `[b]` as the snapshot |
| `Scenario.RoundOnTree` | createStore.js:57-72 | on `{ a: { b }, c }` with deps `["a.b"]`, a round invokes the handler iff `b` differs from the snapshot and stores `[b]` |

## Left out

- The React hooks `useStoreState`, `useStoreDispatch` and `useStore` (createStore.js:75-113) are left out. They are glue over React's `useState`, `useEffect`, `useRef` and `useCallback`, which are not visible here. Their listener (lines 81-94) repeats the `subscribe` logic but re-reads `depsRef.current` on every dispatch. It also sets the snapshot for any truthy deps, even an empty array (line 80).
- Immer's drafts and copy-on-write are not modelled. An updater is an opaque total function, so structural sharing, and hence which objects keep their identity, is up to the updater.
- Redux internals are not modelled: snapshotting of the listener array, the unsubscribe function `subscribe` returns, redux's own checks on actions, and nested or reentrant dispatch from inside a handler.
- The `WeakMap` (line 30) is modelled as an ordinary map keyed by handler identity. Garbage collection is not modelled.
- Updaters that throw are left out, and so are floating-point values such as `NaN` and `-0`. Only integers are modelled.
- Handlers are not run. The model records each invocation and the state passed to it.
- A handler that throws (line 66) is not modelled. In the source it ends the round before `wm.set` (line 68), so that handler keeps its old snapshot. `CreateStore.SnapshotsAfterNotify` ("the snapshot is overwritten whether or not the handler was invoked") holds only because handlers do not throw in the model.
- The listener reads the `deps` array it captured at every run (lines 60 and 64), so mutating that array after `subscribe` changes which branch runs. The model fixes `deps` as a value when subscribing. An array that starts empty and then grows reaches `diff(undefined, deps)`, which throws a TypeError at `baseDeps[index]` (line 42); the model does not capture that.
- Members of primitives (`"ab".length`, `(0).toFixed`) and properties inherited through the prototype chain are not modelled. A member of a non-object, or a key an object does not own, reads as `undefined`. `Paths.DepValueIsCollapsedChain` relies on this.
- Arrays in the state are modelled as objects with index keys. They have no `length`.
- Paths.GetDepValue: requires a root that is neither `undefined` nor `null`, because the source throws a TypeError there. The store models that throw explicitly instead.
- Diffing.Diff: requires a root that is neither `undefined` nor `null` whenever there is a dep to resolve, for the same reason.
- CreateStore.InvocationCount: stated only for subscriptions with distinct handlers and a state that resolves. With a shared handler "at most once per dispatch" is false: two subscriptions of one handler with different deps overwrite each other's snapshot, so the handler is invoked twice on every dispatch even when nothing changed (`CreateStore.AlternatingSnapshots`, `CreateStore.SharedHandlerDifferentDeps`). `CreateStore.SharedSnapshot` covers the case of equal deps, and `CreateStore.CallsPerSubscription` bounds every handler.
