# Completion frequency store, modelled in Dafny

This project models `CompletionFrequencyStore` from `src/utils/completion-frequency.ts`.
The store counts how often the user accepts each autocomplete suggestion. The key is the
suggestion's label.

- **Counter table.** `freq` maps a label to a count. `getCount` reads it. `increment`
  raises one count and ignores the empty label.
- **Persistence.** A `loaded` flag gates saving. Until the first load has resolved, no
  save is ever scheduled.
- **Debounce.** Once loaded, every increment of a non-empty label clears the held timer and arms a new one
  (a trailing debounce). When a timer fires, a full snapshot of the table is written
  under the key `"completion-frequency"`.
- **Decorator.** `wrapCompletion` copies a suggestion and replaces its `apply`. The
  new handler first counts the label the suggestion had when it was wrapped. It then
  takes one of three routes:
  - calls the original `apply` function with the same arguments;
  - inserts the original `apply` text over `[from, to)`;
  - inserts the label of the object it is invoked with.

Layout:

- `completion_frequency.dfy` holds module `CompletionFrequency`.
  - Each operation is a pure step function over `StoreState`, a value holding the
    store's three fields and the host state they interact with.
  - Class `Store` has the fields the source mutates. Each of its methods ensures
    `State() == XStep(old(State()), …)`.
  - The lemmas prove the properties about the step functions. `Inv` is the invariant
    of every reachable state, and `Store.Valid()` is `Inv(State())`.
  - Two client methods use only the class contracts. `AcceptanceScenario` loads a
    fresh store with nothing stored, accepts "alpha" three times and "beta" once, and
    asserts the counts 3, 1 and 0. `DebouncedSaveScenario` accepts once before the
    load and twice after it. It asserts that nothing is pending before the load, that
    the cancelled timer writes nothing, and that the last timer writes one snapshot
    holding all three increments.
- `prototype_lookup.dfy` holds module `PrototypeLookup`, which backs the finding below.

Modelling choices:

- **Labels.** `label` is a reserved word in Dafny, so labels are called `name`. The
  suggestion's field is `Completion.name`.
- **Host timers.** `setTimeout`/`clearTimeout` become two fields: `armed`, the set of
  timers this store scheduled that were neither cleared nor fired, and `nextHandle`,
  the next handle issued. The timer firing is the explicit step `FireTimer(h)`, which
  does nothing if `h` is not armed. As in the source, `saveTimer` is never reset after
  a timer fires: it keeps a stale handle, and the next clear of that handle is harmless.
- **Storage.** `loadData` is the input `LoadReply` to `Load`: either
  `Resolved(StoredValue)` or `Rejected`. `saveData` appends to the ghost log `saves`.
- **Accept events.** `Run` interleaves accepts, timer firings and load settlements in
  any order. An accept between the `load()` call and its resolution is an `Accept`
  event before the `Settle` event. `LoadAdoptsObjects` shows that a stored object then
  replaces the table, dropping those early counts, as line 18 does.
- **Wrapped handlers.** A wrapped handler is `Apply.Counting(name, original)`. It is a
  function, so wrapping an already wrapped suggestion takes the function route, and
  `Store.Invoke` recurses into the inner handler.

Edge cases of the code that the model keeps as they are:

- **Rejected load.** When `loadData` rejects, `loaded` stays false, because lines 15-21
  have no try/finally. Until a later `load()` resolves, no save is scheduled.
- **Repeated load.** Every resolved `load` sets `loaded`, not only the first one. A
  second load that finds an object replaces the table again.
- **Empty label.** `getCount("")` returns `freq[""]` when a loaded table holds that key.
  It is 0 only because `increment` never creates the key.

## Model

| member | source | states |
|---|---|---|
| CompletionFrequency.Bump | src/utils/completion-frequency.ts:53 | The named label's count rises by exactly 1, an absent label counting as 0. Every other label's count is unchanged, and the only key that can be added is the named one. |
| CompletionFrequency.BumpAllCounts | src/utils/completion-frequency.ts:51-53 | After any sequence of increments, a non-empty label's count is its old count plus the number of times it occurs in the sequence. The empty label's count never changes. |
| CompletionFrequency.BurstCounts | src/utils/completion-frequency.ts:51-55 | Before or after the load, a burst of increments raises each non-empty label's count by its number of occurrences. |
| CompletionFrequency.AcceptAllFreq | src/utils/completion-frequency.ts:51-55 | Whatever the timer and load state, a burst of increments changes the table exactly as the increments of line 53 do, one after another, skipping empty labels. |
| CompletionFrequency.AcceptAllAppend | src/utils/completion-frequency.ts:51-65 | Two bursts of increments in a row leave the same state, timers and saves included, as one burst of both sequences, so any number of separate acceptances compose into one burst. |
| CompletionFrequency.InitialInv | src/utils/completion-frequency.ts:9-13 | A fresh store satisfies the invariant, and every label has count 0 in it. |
| CompletionFrequency.StepPreservesInv | src/utils/completion-frequency.ts:15-69 | Every single step keeps the invariant: an accept, a timer firing or a load settling. The invariant says at most the held timer is pending, and before load nothing is pending or saved. |
| CompletionFrequency.RunPreservesInv | src/utils/completion-frequency.ts:15-69 | The invariant holds after any sequence of steps. |
| CompletionFrequency.AtMostOnePending | src/utils/completion-frequency.ts:57-65 | In every state satisfying the invariant, at most one save is pending, and it is the one whose handle `saveTimer` holds. |
| CompletionFrequency.NoSaveBeforeLoad | src/utils/completion-frequency.ts:51-58 | Until a load resolves, no sequence of accepts, timer firings and rejected loads schedules a timer or writes a snapshot. The table still counts every accepted label, in order. |
| CompletionFrequency.IncrementBeforeLoad | src/utils/completion-frequency.ts:51-58 | Before load, increment only updates the table; the timer slot and the pending timers are untouched. |
| CompletionFrequency.IncrementAfterLoad | src/utils/completion-frequency.ts:51-65 | Once loaded, incrementing a non-empty label counts it and leaves exactly one pending timer. That timer is fresh, replaces every earlier one, and nothing is saved yet. |
| CompletionFrequency.BurstLeavesOneTimer | src/utils/completion-frequency.ts:51-65 | Once loaded, after a burst with at least one non-empty label, exactly one timer is pending and none of the earlier ones remain. The table holds every increment and nothing was saved. A burst of empty labels changes nothing. |
| CompletionFrequency.BurstThenFireSavesOnce | src/utils/completion-frequency.ts:57-69 | After a burst, firing the pending timer writes exactly one snapshot under the storage key, containing every increment of the burst. Any other handle writes nothing, and no second firing writes anything. |
| CompletionFrequency.LoadAdoptsObjects | src/utils/completion-frequency.ts:15-21 | The table is replaced exactly when storage returned an object. Otherwise the table is kept. The store is loaded afterwards if and only if it was already loaded or the read resolved. A rejection changes nothing, and load neither saves nor touches timers. |
| CompletionFrequency.Wrap | src/utils/completion-frequency.ts:27-34 | The wrapped suggestion equals the input in every field except `apply`. The new `apply` counts the wrap-time label and delegates to the original `apply`. |
| CompletionFrequency.CountedLabels | src/utils/completion-frequency.ts:33-37 | Invoking a handler counts its own wrap-time label first. It counts only that label unless the original `apply` is itself a wrapped handler. |
| CompletionFrequency.Reaction | src/utils/completion-frequency.ts:35-46 | Every route acts on the range and view it was invoked with. The function route passes the invocation's object unchanged. |
| CompletionFrequency.WrappedApplyRoutes | src/utils/completion-frequency.ts:33-46 | A wrapped handler counts only the wrap-time label, then takes exactly one route: a function `apply` is called with the same (view, obj, from, to); a string `apply` is dispatched over [from, to); an absent `apply` dispatches the label of `obj`. |
| CompletionFrequency.AcceptWrapped | src/utils/completion-frequency.ts:28-46 | Accepting a wrapped suggestion raises the wrap-time label's count by one (none for the empty label). No other label's count changes, and no save happens at once. The fallback inserts the invocation-time label, even when it differs from the counted one. |
| CompletionFrequency.WrapTwice | src/utils/completion-frequency.ts:27-37 | Wrapping twice counts the outer wrap-time label and then the inner one. The observable route is the one of the innermost `apply`. |
| CompletionFrequency.Store.constructor | src/utils/completion-frequency.ts:9-13 | A new store has an empty table, is not loaded, holds no timer, has nothing pending and has saved nothing. |
| CompletionFrequency.Store.Load | src/utils/completion-frequency.ts:15-21 | The new state is `LoadStep` of the old one, and the invariant is kept. Load reports success exactly when the read resolved. |
| CompletionFrequency.Store.GetCount | src/utils/completion-frequency.ts:23-25 | Returns the stored count for a label, or 0 when the label is not in the table. It reads the store and changes nothing. |
| CompletionFrequency.Store.Increment | src/utils/completion-frequency.ts:51-55 | The new state is `IncrementStep` of the old one: the empty label changes nothing; otherwise the count rises and a save is scheduled. The invariant is kept. |
| CompletionFrequency.Store.ScheduleSave | src/utils/completion-frequency.ts:57-65 | Before load, nothing changes. Once loaded, the held timer is cleared, a fresh one is armed and held, and the invariant is kept. |
| CompletionFrequency.Store.Flush | src/utils/completion-frequency.ts:67-69 | Appends one write of the whole current table under the storage key, and nothing else changes. |
| CompletionFrequency.Store.FireTimer | src/utils/completion-frequency.ts:62-64 | A timer that is still armed flushes once and is disarmed. A cleared or already fired timer does nothing. Reports whether a flush ran. |
| CompletionFrequency.Store.Invoke | src/utils/completion-frequency.ts:33-47 | Invoking a wrapped handler increments the wrap-time label(s), then returns the route's outcome. For a non-nested handler it is exactly one increment. |
| PrototypeLookup.GetCountAsWritten | src/utils/completion-frequency.ts:23-25 | `freq[label] ?? 0` on the plain table object is never undefined. It is an inherited member exactly when the label is not an own key and is a name on `Object.prototype`. |
| PrototypeLookup.InheritedNameIsNotACount | src/utils/completion-frequency.ts:9-25 | On a fresh table, `getCount("constructor")` as written yields an inherited function, not the count 0. |
| PrototypeLookup.OwnKeyLookupAgreement | src/utils/completion-frequency.ts:23-25 | The own-key lookup agrees with the code as written exactly on labels the table holds and labels that `Object.prototype` lacks. |
| PrototypeLookup.CorrectedCountOfUnseenIsZero | src/utils/completion-frequency.ts:23-25 | With the own-key lookup, a label never stored and never incremented counts 0, whatever its name, on a fresh store as on a loaded one. |
| PrototypeLookup.InheritedIncrementIsNotACount | src/utils/completion-frequency.ts:51-53 | `increment` as written on a fresh table stores text for "constructor", and a second increment of "toString" appends another "1". For "__proto__" it stores nothing. |
| PrototypeLookup.IncrementAgreesWithBump | src/utils/completion-frequency.ts:51-53 | `increment` as written does what the corrected `Bump` does on every label the table holds as a count and every label `Object.prototype` lacks. |

## Findings

| source | as written | input that shows it | evidently intended | confidence | as-written member | corrected member |
|---|---|---|---|---|---|---|
| src/utils/completion-frequency.ts:9-25 | `freq` is a plain object literal, so `freq[label] ?? 0` also finds members inherited from `Object.prototype` | `getCount("constructor")` on a fresh store returns the `Object` function instead of 0 | a label never counted reads 0, whatever its name | high; not executed | PrototypeLookup.InheritedNameIsNotACount | PrototypeLookup.CorrectedCountOfUnseenIsZero |
| src/utils/completion-frequency.ts:51-53 | `(freq[label] ?? 0) + 1` adds 1 to an inherited function, which concatenates text | accepting "constructor" on a fresh store stores `"function Object() { [native code] }1"`; accepting "toString" twice stores that text followed by "11" | accepting a label raises its count by exactly 1 | high; not executed | PrototypeLookup.InheritedIncrementIsNotACount | CompletionFrequency.Bump |

The rest of the model counts with the own-key lookup `CountOf`, used by `Store.GetCount`
and by `Bump`. For `"__proto__"` the as-written increment stores nothing, because the
`__proto__` setter ignores a string. The text of an inherited function is the one the V8
engine gives; other engines may format it differently, but it is text in every engine.

## Left out

- CompletionFrequency.Bump: counts with the own-key lookup on every label. For the
  names on `Object.prototype` it models the corrected increment, not line 53 as
  written; `PrototypeLookup.IncrementAsWritten` models that path.
- CompletionFrequency.Store.Increment: built on `Bump`, so it has the same corrected
  lookup on the names on `Object.prototype`, and the same unbounded counts.
- CompletionFrequency.Store.GetCount: reads with the own-key lookup, so
  `getCount("constructor")` is 0 here while line 24 as written returns the inherited
  `Object` function; `PrototypeLookup.GetCountAsWritten` models that path.
- CompletionFrequency.Bump: counts are unbounded integers here. In the source they
  are JavaScript numbers (doubles), so the `+ 1` of line 53 stops changing a count
  once it reaches 2^53; in practice only a loaded count can get that high.

- `loadData` and `saveData` are not modelled as calls. They are asynchronous host
  calls, so the load is the input `LoadReply` and each save appends to the log `saves`.
- A rejected `saveData` (a failed flush) is not modelled: each flush is recorded as a
  write. Storage failures belong to the host.
- Async interleaving is not modelled. `load` takes effect at the moment it settles,
  and overlapping in-flight flushes are not distinguished from completed ones.
- The 300 ms delay and wall-clock time are left out. Only the order of events matters.
- The loaded value is not validated. It is taken as a table of labels to natural
  numbers, while the source casts without checking.
- Aliasing is not modelled. Line 18 keeps the loaded object itself as the table, and
  line 68 hands the live table to `saveData`; the model treats both as values. A
  snapshot is the table at the moment the timer fires.
- The `String(… ?? "")` coercions of `label` are not modelled: labels are strings.
- CodeMirror's `EditorView` and `Completion` are opaque here: the view is an id, the
  other fields of a suggestion are a map of opaque values, and a function-valued
  `apply` is a callback id. The result of that callback is represented by the
  `CalledFn` call record.
- A wrapped handler does not record which store it captured. `Store.Invoke` counts on
  the store it is called on.
