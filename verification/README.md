# react-redux-effects, modelled in Dafny

This project models the whole logic of `src/index.js`, a helper library for Redux stores. The library has three parts:

- **Two slice reducers.** They are registered under `@@LOADING` and `@@ERRORS`. Each keeps a plain object keyed by action type. `@@LOADING/BEGIN` and `@@LOADING/END` set a type's loading flag to true and false. `@@ERRORS/CLEAR` resets a type's error slot to `false`. `@@ERRORS/SET` stores `error ?? true`.
- **The effects middleware.** It recognises an `[action, effect]` pair. While an effect of the same action type is in flight, a new pair is dropped. Otherwise the pair's action is forwarded, BEGIN and CLEAR are dispatched, and the effect runs in a promise chain. A rejection dispatches SET. END always follows, and then the guard is cleared.
- **The query logic of `useLoading` and `useErrors`.** Called with no arguments, they look at the whole slice. Called with targets, they look at the named entries.

Modules, one per file:

- `Wrappers` (`wrappers.dfy`): `Option`.
- `JsValue` (`js_value.dfy`): the JavaScript values the slices can hold, truthiness, and `??`.
- `Objects` (`objects.dfy`): plain objects used as dictionaries. They hold own properties in insertion order, with the `{...o, [k]: v}` update and `Object.values`.
- `Reducers` (`reducers.dfy`): actions, the two reducers, the root reduction, and folds over action sequences.
- `Middleware` (`middleware.dfy`): the middleware as a deterministic transition system. Its state is the `activeEffects` guard, the unfinished promise chains, and a trace of what it emitted. The asynchronous chain is split into environment-chosen steps:
  - `Start`: the microtask that calls the effect.
  - `Settle(outcome)`: the catch handler and the first finally handler.
  - `Release`: the second finally handler, which clears the guard.
- `Hooks` (`hooks.dfy`): `useLoading` and `useErrors` as loops over an explicitly passed slice. Each loop is checked against a reference definition.
- `Lifecycle` (`lifecycle.dfy`): composes the trace with the reducers. It holds the invariant every step preserves and the consequences a caller observes.

Inputs the library does not control are parameters:

- the value `next` returns;
- the effect's identity and its outcome;
- the order in which pending promise chains advance.

The store is assumed to feed every action passed to `next` to its root reducer.

A reader might expect `useErrors()` to return only truthy values. The code uses `value ?? []` (src/index.js:63), which keeps falsy entries such as the `false` that CLEAR stores. The model follows the code (`Hooks.WithoutArraysErrorsAreNonNullish`, `Hooks.ClearedEntryIsReported`). The code tests only `instanceof Array` (src/index.js:28), not a two-element pair; see "Left out".

## Model

| member | source | states |
|---|---|---|
| Objects.Put | src/index.js:7 | `{...o, [k]: v}` makes `k` hold `v` and leaves every other key as it was. An existing key keeps its enumeration position; a new key is enumerated last. |
| Objects.ValuesAreTheSlots | src/index.js:53 | `Object.values` visits the value of every own property, and nothing else. |
| JsValue.Coalesce | src/index.js:18 | `a ?? b` keeps every non-nullish `a`, including the falsy ones. It yields `b` only for null or undefined. |
| JsValue.NullishIsFalsy | src/index.js:53-64 | Nullish values are falsy. The falsy non-nullish values are exactly `false`, `0`, `NaN` and `''`, which is where `!!v` and `v ?? []` disagree. |
| Reducers.LoadingReducer | src/index.js:4-12 | An undefined slice defaults to `{}`. BEGIN sets the target to true and END sets it to false. No other key changes. Any other action type returns the incoming slice itself. |
| Reducers.ErrorsReducer | src/index.js:13-21 | CLEAR sets the target to `false`. SET stores the payload, or `true` when the payload is null or undefined. A falsy payload leaves the slot falsy. No other key changes, and other action types return the slice itself. |
| Reducers.Reduce | src/index.js:3-22 | An action that is not one of the four lifecycle types leaves both slices unchanged. No action changes any key other than its target. |
| Reducers.ReduceAllAppend | src/index.js:3-22 | Reducing a concatenation of action sequences is reducing one after the other. |
| Reducers.LoadingFollowsLastBeginEnd | src/index.js:4-12 | After any action sequence, a target's loading flag is the one its most recent BEGIN/END set. With no such action, it is the earlier value. |
| Reducers.ErrorFollowsLastClearSet | src/index.js:13-21 | After any action sequence, a target's error slot holds what its most recent CLEAR/SET stored. With no such action, it is the earlier value. |
| Reducers.UntouchedTargetKeepsSlots | src/index.js:4-21 | A sequence with no lifecycle action aimed at `t` leaves both of `t`'s slots as they were. |
| Middleware.Dispatch | src/index.js:27-41 | The guard is read through `IsActive`, which sees own properties only. This is the corrected half of the finding below: for a type named after an `Object.prototype` member, the model accepts where the source drops. A pair whose type is active is dropped: the state is unchanged, nothing is emitted, and `undefined` is returned. An accepted pair activates the guard, schedules one chain, and emits forward, BEGIN and CLEAR in that order. A plain action is only forwarded, and `next`'s result is returned. |
| Middleware.Start | src/index.js:35-36 | The scheduled microtask calls the pair's effect with the pair's action. The guard is untouched. |
| Middleware.SettleActions | src/index.js:37-38 | A rejection dispatches SET with the reason before END. A resolution dispatches only END. END is always last. |
| Middleware.Settle | src/index.js:36-38 | Settling emits SET (on rejection) and then END. The guard stays set until release. |
| Middleware.Release | src/index.js:39 | The second finally handler clears the guard for the chain's type only, and the chain is finished. |
| Middleware.PrototypeTypeDroppedAsWritten | src/index.js:26-30 | As written, a fresh middleware treats any type named after an `Object.prototype` member as already active. |
| Middleware.FreshMiddlewareAcceptsEveryType | src/index.js:26-34 | With own-property reads, a fresh middleware accepts a pair of any type. It emits forward, BEGIN and CLEAR. |
| Hooks.UseLoading | src/index.js:50-58 | With no targets, the result is true iff some entry of the slice is truthy, so an empty slice gives false. With targets, it is true iff some named target's entry is truthy; absent keys count as false. |
| Hooks.Spread | src/index.js:63-64 | `value ?? []` contributes nothing for null or undefined. It contributes the value itself for any other non-array value, falsy ones included. |
| Hooks.UseErrors | src/index.js:60-65 | The result is the flat-map of `?? []` over the slice's values in enumeration order (no targets), or over each target's entry in argument order. |
| Hooks.FlatSpreadAppend | src/index.js:63-64 | Flat-mapping distributes over concatenation. |
| Hooks.WithoutArraysErrorsAreNonNullish | src/index.js:62-64 | When no entry is an array, the result is exactly the non-nullish entries, in order: `x` is returned iff it is stored and not null or undefined. |
| Hooks.AbsentTargetContributesNothing | src/index.js:64 | `useErrors('X')` is `[]` when X has no entry. |
| Hooks.ErrorsPerTarget | src/index.js:64 | With several targets, the answer is the per-target answers concatenated in argument order. |
| Hooks.ScalarSourceIsReported | src/index.js:63-64 | Any non-nullish, non-array value among the mapped values appears in the result. |
| Hooks.ClearedEntryIsReported | src/index.js:63 | An entry that CLEAR reset to `false` is still returned by `useErrors()`. |
| Lifecycle.ObservedAppend | src/index.js:32-38 | What the store shows after more events is the earlier view with the new events' actions reduced on top. |
| Lifecycle.AcceptedPairObserved | src/index.js:31-34 | After any history, once a pair of type `t` is accepted, the store shows `t` loading and its error slot `false`. |
| Lifecycle.SettleObserved | src/index.js:36-38 | After settling, `t` is not loading. A rejection leaves `reason ?? true` in the error slot. A resolution leaves the error slot as it was. |
| Lifecycle.DispatchPreservesInv | src/index.js:27-41 | A caller's dispatch preserves the invariant. The guard is set exactly for unfinished chains, and each chain is filed under its type. Every BEGIN is matched by one effect call and one END, except the one pending chain. The store shows loading/cleared while a chain runs and the outcome once it settled. |
| Lifecycle.StartPreservesInv | src/index.js:35-36 | Calling the effect preserves the same invariant. |
| Lifecycle.SettlePreservesInv | src/index.js:36-38 | Settling preserves the same invariant. |
| Lifecycle.ReleasePreservesInv | src/index.js:39 | Clearing the guard preserves the same invariant. |
| Lifecycle.DispatchKeepsOrderly | src/index.js:27-41 | Any dispatch, whatever its action type, preserves the bookkeeping part of the invariant. The guard is set exactly for unfinished chains, and each chain is filed under its type. Every BEGIN is matched by one effect call and one END, except the one pending chain. |
| Lifecycle.RunKeepsOrderly | src/index.js:24-41 | Every schedule of dispatches and promise steps keeps that bookkeeping, with no restriction on the action types callers dispatch. |
| Lifecycle.RunPreservesInv | src/index.js:24-41 | Every schedule of caller dispatches and promise steps keeps the full invariant, including the store's slots. |
| Lifecycle.InFlightPairDropped | src/index.js:29-30 | In any state that keeps the bookkeeping invariant, whatever types callers dispatched: while a chain of type `t` is unfinished, even after its END, a new pair of type `t` leaves the state unchanged and returns `undefined`. Its effect is never called. |
| Lifecycle.ReleasedTypeAcceptedAgain | src/index.js:29-39 | After the guard is released, a new pair of the same type is accepted and scheduled. |
| Lifecycle.QuiescentStoreIsNotLoading | src/index.js:38-53 | With no unfinished chain and no initially truthy loading flag, `useLoading()` is false: no type is left marked loading. |
| Lifecycle.OnePairLifecycle | src/index.js:31-39 | One pair's full life emits forward, BEGIN, CLEAR, the effect call, SET on failure, then END. Afterwards the guard is clear and no chain remains. |
| Lifecycle.FailedEffectObserved | src/index.js:33-64 | After a failed effect settles and is released, `useLoading(t)` is false. `useErrors(t)` lists `reason ?? true`. |
| Lifecycle.SucceededEffectObserved | src/index.js:33-38 | A succeeding effect shows loading true and then false. Its error slot stays `false` throughout. |

## Left out

- `useSelector` and React's re-render subscription (src/index.js:51, 61) are a foreign library. The hooks take the slice as a parameter.
- `delay` (src/index.js:46-48) only wraps the host timer and has no logic.
- Promise and microtask scheduling is reduced to the environment choosing when `Start`, `Settle` and `Release` happen. The catch handler and the first finally handler are one `Settle` step. Unrelated events that would interleave between SET and END in a real microtask queue are therefore not modelled.
- The effect's body and its use of `store` are caller code. Only the effect's identity and its outcome are modelled. A synchronous throw is the same as `Rejected`.
- The value the returned promise resolves to is not modelled. An accepted pair returns `EffectPromise(t)`.
- Lifecycle actions sent through `store.dispatch` are fed straight to the reducers. On re-entry the middleware would pass them on unchanged, since they are not arrays. A `store.dispatch` that throws inside the catch handler is not modelled.
- Array dispatches of other lengths are not modelled. `instanceof Array` also accepts them. A one-element array makes the effect `undefined`, whose call rejects with a TypeError; this equals a `Rejected` outcome. An empty array throws synchronously when it reads `action[0].type`.
- Action types and targets are strings. Property-key conversion of non-string targets is not modelled.
- `Object.values` is modelled in insertion order. JavaScript enumerates array-index-like keys such as `"1"` first, in numeric order, and that ordering is not modelled.
- Numbers are integers plus `NaN`. Fractions, `-0` and BigInt are not distinguished.
- The hooks read own properties only. As written, `loading['toString']` and `error['toString']` inherit from `Object.prototype`, the same cause as the finding below.
- Middleware.Dispatch: assumes `next(action[0])` and the two `store.dispatch` calls (src/index.js:32-34) return normally. The source sets the guard at line 31 with no `try/finally`. If a downstream middleware or reducer throws there, no promise chain exists to clear the guard, and every later pair of that type is dropped. The model always schedules a chain, so `Lifecycle.GuardAgrees` does not cover that case.
- Middleware.Dispatch: assumes actions are not mutated. The source re-reads `action[0].type` at src/index.js:33, 34, 37, 38 and 39. A downstream middleware or the effect could change `.type` on that shared object. Lifecycle actions and the guard release would then go to the new type, and the original type's guard would stay set. The model fixes the type when the pair is accepted.
- Lifecycle.DispatchPreservesInv: requires that callers never dispatch the library's four lifecycle types themselves. The source does not forbid it, but such an action could move another type's flags.
- Lifecycle.RunPreservesInv: carries the same assumption about caller dispatches (`CallerMove`). Only the slot part needs it: `Lifecycle.RunKeepsOrderly` proves the guard, chain and count bookkeeping for every schedule.
- Lifecycle.QuiescentStoreIsNotLoading: assumes the store started with no truthy loading flag, which holds for the reducers' `{}` default.

## Findings

| source | as written | input that shows it | evidently intended | confidence | as-written member | corrected member |
|---|---|---|---|---|---|---|
| src/index.js:26-29 | `activeEffects` is a plain `{}`, so `activeEffects[t]` also finds inherited `Object.prototype` members, all truthy | dispatch `[{type: 'constructor'}, effect]` to a freshly created store: the pair is dropped, and the guard never gains an own property for it, so it is dropped every time | the pair is accepted, since no effect of that type is in flight | medium, not executed | Middleware.IsActiveAsWritten, Middleware.PrototypeTypeDroppedAsWritten | Middleware.IsActive, Middleware.FreshMiddlewareAcceptsEveryType |
