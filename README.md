# Request collapse, progress fan-out and query decoding — a Dafny model

This project models the coordination layer in front of the CAD engine of the
OpenAFPM CAD desktop application:

- **The request-collapse cache** (`backend/request_collapse.py`). One process-wide
  slot holds a key, an entry and the current cancel flag. A call whose key is
  in the slot gets the cached result or error, or joins the running entry and
  waits on its done-signal. A call with another key sets the current cancel
  flag, waits for the old entry, re-checks the slot and installs a fresh
  `loading` entry, then runs the worker outside the lock. The outcome is
  published into the slot: success marks the entry `complete`,
  `InterruptedError` empties the slot, other errors are cached as `error`.
  The module `Collapse` holds the classes `CancelFlag`, `Entry` and
  `CollapseCache`. Each region that runs under the cache lock is one method,
  so one atomic step. Each blocking wait separates the step before it, which
  returns the entry waited on, from the step after it, which requires that
  entry's done-signal to have fired. Ids come from a counter. Keys, results and
  the worker are abstract; the worker's outcome is the argument of
  `FinishOk`/`FinishErr`.
- **The progress broadcaster** (`backend/progress_broadcaster.py`). It keeps a
  list of callbacks. The operations are append, broadcast with per-callback
  fault isolation followed by pruning of the callbacks that raised, remove the
  first occurrence, and count. Callbacks are opaque ids; the set of ids that
  raise during one broadcast is a parameter (module `Broadcasting`).
- **Query-parameter decoding** (`test_sse_api.py`). `convert_query_param_type`
  turns a string into a bool, int, float or string. `parse_prefixed_parameters`
  groups `prefix.name` keys into nested maps (module `QueryParams`). Python's
  `int()` and `float()` on strings are partial functions passed in as
  `NumberSyntax`.

Module `CollapseScenarios` drives fresh caches through interleavings of the
steps. Each method is one schedule of concurrent callers: repeated calls,
joined callers, cancel-and-replace, and the races the design leaves open.
Its postconditions say what every caller observes.

Sharp edges of the code that the model keeps:
- On success the code does not check that the slot still holds the caller's
  entry (see Findings).
- On failure the code compares keys, not entry ids.
- The flag set on a key change is `_current_cancel_event`. It is never reset,
  so after the slot has been emptied it is the flag of a finished run.

## Model

| member | source | states |
|---|---|---|
| `Broadcasting.ProgressBroadcaster.constructor` | backend/progress_broadcaster.py:17-19 | a new broadcaster has no callbacks |
| `Broadcasting.ProgressBroadcaster.AddCallback` | backend/progress_broadcaster.py:21-25 | the callback is appended at the end, duplicates kept; nothing is delivered |
| `Broadcasting.ProgressBroadcaster.Broadcast` | backend/progress_broadcaster.py:27-41 | every registered callback is called exactly once, in registration order, with the same message and progress, whether or not earlier ones raised; afterwards the list is the old list pruned of every callback that raised |
| `Broadcasting.ProgressBroadcaster.RemoveCallback` | backend/progress_broadcaster.py:43-48 | the list loses exactly its first occurrence of the callback; unchanged if absent |
| `Broadcasting.ProgressBroadcaster.GetCallbackCount` | backend/progress_broadcaster.py:50-53 | returns the number of registrations, changing nothing |
| `Broadcasting.Prune` | backend/progress_broadcaster.py:38-40 | a callback survives iff it was registered and did not fail; if none failed the list is unchanged |
| `Broadcasting.PruneCounts` | backend/progress_broadcaster.py:40 | every occurrence of a failed callback is dropped and every occurrence of the others kept |
| `Broadcasting.PruneAppend` | backend/progress_broadcaster.py:40 | survivors keep their relative order (pruning distributes over concatenation) |
| `Broadcasting.PruneAgrees` | backend/progress_broadcaster.py:36-40 | pruning by the list of failed callbacks equals pruning by the set of callbacks that raise |
| `Broadcasting.IndexOf` | backend/progress_broadcaster.py:46-47 | the position found holds the callback and no earlier position does |
| `Broadcasting.RemoveFirst` | backend/progress_broadcaster.py:46-47 | the list with the first occurrence cut out, or the list itself when the callback is absent |
| `Broadcasting.RemoveUndoesAdd` | backend/progress_broadcaster.py:21-48 | removing a callback registered once restores the list before its registration |
| `Collapse.CollapseCache.constructor` | backend/request_collapse.py:60-63 | the slot starts empty with no cancel flag |
| `Collapse.CollapseCache.ServeSameKey` | backend/request_collapse.py:178-189 | for a same-key call: a complete entry gives its result and one ("Using cached result", 100) notice, an error entry gives its error, a loading entry gets the callback appended and is joined |
| `Collapse.CollapseCache.Install` | backend/request_collapse.py:227-245 | a fresh entry with the next id, `loading`, no result, a new unset cancel flag that becomes the current one, a broadcaster holding only the caller's callback; key and entry are set together |
| `Collapse.CollapseCache.Enter` | backend/request_collapse.py:176-245 | same key: answered from the slot and nothing in the slot changes; other key: the current cancel flag is set first, then either the caller must wait for the entry in the slot, or (empty slot) a fresh entry is installed whose id differs from every earlier id |
| `Collapse.CollapseCache.AfterCancelWait` | backend/request_collapse.py:202-245 | after the awaited entry fired: an entry for the caller's key installed meanwhile is served or joined, with no second entry; otherwise a fresh entry is installed over whatever is in the slot, whose broadcaster keeps its callbacks |
| `Collapse.CollapseCache.IdentifiedById` | backend/request_collapse.py:236-239 | two entries with equal ids are the same entry |
| `Collapse.CollapseCache.WakeJoined` | backend/request_collapse.py:104-124 | a joined caller gets `InterruptedError` if the slot is empty or holds another id; otherwise its own entry is terminal and it gets its error (slot cleared only for `InterruptedError`) or its result |
| `Collapse.CollapseCache.CaptureCancelFlag` | backend/request_collapse.py:254-255 | the flag read for the worker is that of the entry in the slot at that moment, which is the current cancel flag |
| `Collapse.CollapseCache.RelayProgress` | backend/request_collapse.py:248-252 | progress goes to every callback of the entry now in the slot, whichever call installed it, and is dropped when the slot is empty |
| `Collapse.CollapseCache.FinishOk` | backend/request_collapse.py:266-273 | the entry in the slot, whichever it is, becomes complete with the result and keeps its error; a slot entry that is not the caller's does not fire; the caller's own entry keeps its error, and its status and result when it is not in the slot; the slot key and entry stay; the caller's own entry fires; the result is returned |
| `Collapse.CollapseCache.FinishErr` | backend/request_collapse.py:274-290 | only when the slot still holds the caller's key: `InterruptedError` empties the slot, any other error is stored with status error, and a slot entry that is not the caller's does not fire; otherwise the slot and its entry are left as they were, and an entry emptied out of the slot keeps its fields; the caller's entry keeps its status, result and error unless it is the one updated; it fires and the error is raised |
| `Collapse.CollapseCache.FinishOkChecked` | backend/request_collapse.py:266-273 | corrected success path: only the caller's own entry is marked complete; an entry of another call in the slot is left entirely as it was (it does not fire); the caller's error is kept |
| `CollapseScenarios.SequentialSameKeyHits` | backend/request_collapse.py:178-184 | after a completed call, the same key returns the stored result with one ("Using cached result", 100) notice and runs no worker |
| `CollapseScenarios.FailureIsReplayed` | backend/request_collapse.py:185-187 | after a failed call, the same key re-raises the stored error without running the worker |
| `CollapseScenarios.InterruptionIsNotCached` | backend/request_collapse.py:277-281 | after `InterruptedError` the slot is empty, late progress is dropped, and the same key starts a new entry with a new id |
| `CollapseScenarios.ConcurrentSameKeyCollapse` | backend/request_collapse.py:81-124 | three concurrent same-key callers: the first starts the only entry and the other two join it, so one worker runs; every callback receives its progress in arrival order, all three get its result |
| `CollapseScenarios.FailureReachesEveryJoiner` | backend/request_collapse.py:112-122 | the two later callers join the first caller's entry, and every joined caller of a failing run receives that run's error; a later caller receives the cached copy |
| `CollapseScenarios.NewKeyCancelsRunning` | backend/request_collapse.py:190-245 | a new key sets the running worker's flag before its own entry exists, installs only after the old run ended, and gets its own worker's result |
| `CollapseScenarios.SameNewKeyWaiters` | backend/request_collapse.py:194-217 | two callers with one new key waiting on a run: after it ends the first installs an entry and the second joins that entry rather than creating another |
| `CollapseScenarios.SameNewKeyWaitersShareOneRun` | backend/request_collapse.py:205-211 | those two callers are served by one worker: both callbacks get its progress and both get its result |
| `CollapseScenarios.StaleFlagSetAgain` | backend/request_collapse.py:194-199 | the cancel flag of an interrupted, finished run stays in place and is set again by the next other-key call, which then starts its own entry at once |
| `CollapseScenarios.JoinerWakesBeforeReplacement` | backend/request_collapse.py:111-124 | a joiner that wakes before the replacement is installed gets its run's result |
| `CollapseScenarios.JoinerWakesAfterReplacement` | backend/request_collapse.py:111-113 | the same joiner waking after the replacement gets `InterruptedError` |
| `CollapseScenarios.TwoWaitersBothInstall` | backend/request_collapse.py:198-245 | two callers with different new keys waiting on one run both install after it ends, the second over the first, and both entries are loading with unset flags |
| `CollapseScenarios.ForeignResultCached` | backend/request_collapse.py:266-270 | in that schedule one worker's progress reaches the other key's caller and its result is cached under the other key |
| `CollapseScenarios.ForeignResultRejected` | backend/request_collapse.py:266-270 | with the corrected success path a later caller of the other key joins its own run and gets that run's result |
| `QueryParams.Convert` | test_sse_api.py:46-66 | bool iff the lower-cased text is "true" or "false" (true iff "true"), checked first; int only without a '.' and when `int()` accepts; float (finite, infinite or NaN) when `float()` accepts and the int branch did not; otherwise the string unchanged |
| `QueryParams.SplitFirstDot` | test_sse_api.py:37 | the key is prefix + "." + rest with no '.' in the prefix |
| `QueryParams.SplitJoined` | test_sse_api.py:37 | splitting undoes joining a dot-free prefix and a name |
| `QueryParams.ParsePrefixedParameters` | test_sse_api.py:28-44 | the loop over the pairs yields the fold of the per-pair store, stopping at the first failing item assignment |
| `QueryParams.ParseFailsIffClash` | test_sse_api.py:36-42 | from any partial result, the parse fails iff some dotted key meets a prefix that holds a value |
| `QueryParams.ParseFailsIffValueThenGroup` | test_sse_api.py:36-42 | from an empty result, the parse fails iff a key `p.…` comes after the key `p` |
| `QueryParams.PlainKeyStored` | test_sse_api.py:41-42 | a key without '.' is stored at top level with its converted value |
| `QueryParams.DottedKeyStored` | test_sse_api.py:36-40 | a key `p.n` becomes member `n` of group `p` with its converted value unless a later key is `p` itself |
| `QueryParams.EveryStoredValueIsConverted` | test_sse_api.py:32-42 | every stored value equals the conversion of the input value whose key leads to it |

## Left out

- Threads and locks: the cache lock, `release_lock_during_wait` and the broadcaster's own lock are not modelled. Each locked region is one atomic step; a wait is the boundary between two steps.
- Collapse.CollapseCache.FinishOk, Collapse.CollapseCache.FinishErr, Collapse.CollapseCache.FinishOkChecked: the `event.set()` that follows the locked region (backend/request_collapse.py:272-273 and 288-289) is folded into the same step. It only enables wake-ups, so no other step can observe the difference.
- Collapse.CollapseCache.CaptureCancelFlag: on an empty slot the source raises `TypeError` outside its `try`, so the entry never fires. The model returns null there and does not follow that path further.
- A caller's callback that raises on the direct "Using cached result" notice makes the source raise out of the cache-hit path. Callbacks invoked directly are assumed not to raise; only broadcaster deliveries can fail.
- `uuid4`, the key generator, the worker itself, logging, `request_id` and `functools.wraps`: ids come from a counter; keys, results and outcomes are parameters.
- The unused `old_event` computed at backend/request_collapse.py:219-222 has no effect and is not modelled.
- The joined-caller branch that clears the slot for a stored `InterruptedError` (backend/request_collapse.py:119-121) is modelled, but no step of the model ever stores that error, because the failure path clears the slot instead.
- QueryParams.Convert: `int()` and `float()` are partial functions given as parameters, not their string grammar. A float is a finite real, an infinity or NaN, so `float()` results such as `float("inf")` or `float("nan")` have their own values; rounding of finite values to the nearest double is not modelled. Lower-casing covers A-Z only; no other character lower-cases to a letter of "true" or "false".
- The SSE streaming endpoint, its event queue, heartbeats and disconnect handling in test_sse_api.py: asyncio tasks and I/O are not part of this model.
- backend/api.py routing and the FreeCAD command-line scripts are not part of this model.

## Findings

| source | as written | input that shows it | evidently intended | confidence | as-written member | corrected member |
|---|---|---|---|---|---|---|
| backend/request_collapse.py:266-270 | on success the result is stored in whatever entry is in the slot, without checking that it is the caller's own (the failure path checks, at 276-277) | `k1` is running; callers with `k2` and `k3` both wait on it; it ends with `InterruptedError`; `k2` installs, then `k3` installs over it without cancelling it; the `k2` worker returns `v2`, which lands in the `k3` entry; a later `k3` call gets `v2` | store the result only into the caller's own entry, so a key is never served another key's result (proved in `CollapseScenarios.ForeignResultRejected`) | medium; not executed | `CollapseScenarios.ForeignResultCached` | `Collapse.CollapseCache.FinishOkChecked` |

The other scenarios drive the success path as written. In each of them the slot
still holds the caller's own entry when the worker returns, so both versions
behave the same there.
