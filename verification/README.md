# Queued mutations for an offline-first exercise list

This project models the core of a small React Native screen that toggles
exercises as done or not done against a remote service. There are two parts.

**The serialising mutation queue** (`useQueuedMutation`,
`mutation_queue.dfy`, module `QueuedMutation`). A FIFO of operation records,
each with an `isInFlight` flag, owned by the class `MutationQueue`. It has
three operations:

- `Submit` is the returned `queue` function. It runs the queue-level
  `onMutate` hook, then appends a fresh record that is not in flight.
- `Schedule` is the body of the effect. It does nothing when the queue is
  empty or a record is in flight. Otherwise it flags the head record and
  starts its executor.
- `Settle` is the `.then/.catch/.finally` chain of a started record. It runs
  the success or error callbacks, then the settled callbacks, then removes
  the record by identity.

Everything observable is appended to an event `trace`:

- `Mutated(v)`: the `onMutate(v)` call.
- `Executed(v)`: `mutateAsync(v)` is started.
- `Callback(tier, call, v)`: one completion callback. `tier` says whether it
  is the queue-level default or the per-call override.

The executor resolving or rejecting is an input to `Settle` (`Outcome`). A
record's object identity is a fresh `id` taken from `nextId` on each submit.
Callbacks are modelled by presence flags (`Callbacks`), because only whether
they exist changes what the queue does. A per-call override set is consulted
only for `onSuccess`, `onError` and `onSettled`. Its `onMutate` is never
called, as in the code.

The ghost fields `submitted`, `started` and `settled` count the queue's
history. The invariant `QueueInv` ties them to the records and the trace:

- the pending records are exactly the unsettled submissions, oldest first;
- only the head can be in flight, and only once it has been started;
- the executors in the trace were started in submission order;
- `onMutate` ran once per submission, in submission order.

**The optimistic list updater** (`ExercisesPage.tsx`, `exercises_page.dfy`,
module `ExercisesPage`). `updateLocalExerciseList` maps over the cached
exercise list, if there is one. Every entry with the target id gets `isDone`
and `isNotSynced` overwritten; every other entry is kept as it is. The page's
`onMutate` calls it with `isNotSynced = true` and its `onSuccess` with
`false`. The button queues the opposite of the current `isDone`. The module
also wires the page's callbacks into the queue. `Replay` folds the queue's
trace into the cache. `DoubleToggle` drives two quick presses on one exercise
through the queue.

Two points where the code does less than a serialising queue is usually
expected to do. The model does not follow the code on either; both are
listed under "Left out":

- A scheduler is expected to re-run after every submit and every
  settlement. In the code it is a `useEffect` keyed on `[options,
  pendingMutations]`, and mutating the ref does not change those. The model
  leaves the scheduler trigger to its callers: they call `Schedule`
  explicitly, and nothing is claimed about when React re-runs the effect.
- An optimistic hook is expected to finish before `queue` returns. The
  page's `onMutate` is `async`: it awaits `cancelQueries` before writing the
  cache, and `queue` does not await it. The model treats the optimistic
  write as immediate: `Replay` applies it at the `Mutated` event.

## Model

| member | source | states |
|---|---|---|
| `QueuedMutation.Layer` | useQueueMutations.ts:53-79 | an absent per-call option set provides no `onSuccess`, `onError` or `onSettled`; a present one provides exactly its own |
| `QueuedMutation.SomeInFlight` | useQueueMutations.ts:33 | true exactly when some pending record has `isInFlight` set |
| `QueuedMutation.OnlyHeadInFlight` | useQueueMutations.ts:30-43 | when only the head may be flagged, at most one record is in flight, and exactly one iff the head is flagged |
| `QueuedMutation.Without` | useQueueMutations.ts:81-83 | the identity filter never makes the queue longer |
| `QueuedMutation.WithoutMembers` | useQueueMutations.ts:81-83 | the filter keeps exactly the records whose identity differs from the settled one |
| `QueuedMutation.WithoutUnique` | useQueueMutations.ts:81-83 | with distinct identities, removing a record by identity removes exactly that one and keeps the others in order; length drops by one |
| `QueuedMutation.OutcomeChain` | useQueueMutations.ts:47-66 | on success exactly the present `onSuccess` callbacks run with the data; on failure exactly the present `onError` callbacks run with the error; default before override |
| `QueuedMutation.SettledChain` | useQueueMutations.ts:67-79 | exactly the present `onSettled` callbacks run, default before override, each with placeholder result and error, whatever the outcome |
| `QueuedMutation.Dispatch` | useQueueMutations.ts:47-79 | a record's completion chain consists only of completion callbacks that receive the record's variables, at most four of them |
| `QueuedMutation.DispatchChain` | useQueueMutations.ts:47-84 | a settlement runs only completion callbacks with the record's variables: exactly those provided, success ones only on success and error ones only on failure, settled ones last with placeholders, defaults before overrides in each phase, none twice |
| `QueuedMutation.SubmitKeepsInv` | useQueueMutations.ts:87-104 | appending a fresh record that is not in flight, after the optional `onMutate` event, preserves the queue invariant and at most one in flight |
| `QueuedMutation.ScheduleKeepsInv` | useQueueMutations.ts:38-46 | flagging the head of a queue with nothing in flight and starting its executor preserves the invariant; then exactly one record is in flight |
| `QueuedMutation.SettleKeepsInv` | useQueueMutations.ts:47-84 | removing the started head after its callback chain preserves the invariant and leaves nothing in flight |
| `QueuedMutation.MutationQueue.constructor` | useQueueMutations.ts:26-28 | a new queue is empty, has an empty trace and keeps the given callbacks |
| `QueuedMutation.MutationQueue.IsLoading` | useQueueMutations.ts:105 | loading exactly when some submission has not settled yet; when not loading, every submission has been started |
| `QueuedMutation.MutationQueue.Submit` | useQueueMutations.ts:87-104 | `onMutate(variables)` is recorded if present; one record with a fresh identity, the variables and overrides, not in flight, is appended at the tail; earlier records unchanged; invariant kept |
| `QueuedMutation.MutationQueue.Schedule` | useQueueMutations.ts:30-46 | no-op when empty or something is in flight; otherwise only the head is flagged, its executor start is recorded and it is returned; length, order and other records unchanged; invariant kept |
| `QueuedMutation.MutationQueue.Settle` | useQueueMutations.ts:45-84 | the settled record is the head; the trace grows by exactly its completion chain; the queue loses exactly that record, the rest in order; nothing is in flight afterwards |
| `QueuedMutation.MutationQueue.Retire` | useQueueMutations.ts:80-83 | once a settled record's callbacks have run, the record is filtered out by identity: it is the head, the rest stay in order, nothing is in flight and the invariant is kept |
| `ExercisesPage.PatchAll` | ExercisesPage.tsx:25-34 | length and order kept; entries with the id get the two flags and keep id and other fields; other entries unchanged |
| `ExercisesPage.PatchEntry` | ExercisesPage.tsx:26-33 | an entry with the target id gets the two flags and keeps its id and other fields; any other entry is returned unchanged |
| `ExercisesPage.UpdateLocalExerciseList` | ExercisesPage.tsx:19-36 | an absent list stays absent; a present list is patched entry by entry as above |
| `ExercisesPage.OnMutateUpdate` | ExercisesPage.tsx:52-55 | target entries get the payload's `isDone` and `isNotSynced = true`; everything else unchanged |
| `ExercisesPage.OnSuccessUpdate` | ExercisesPage.tsx:48-51 | entries with the reply's id get the reply's `isDone` and `isNotSynced = false`; everything else unchanged |
| `ExercisesPage.TogglePayload` | ExercisesPage.tsx:72-76 | the queued payload has the exercise's id and the opposite `isDone` |
| `ExercisesPage.LastUpdateWins` | ExercisesPage.tsx:24-35 | a later update of the same id entirely overrides an earlier one |
| `ExercisesPage.DistinctUpdatesCommute` | ExercisesPage.tsx:24-35 | updates of different ids can be applied in either order |
| `ExercisesPage.OptimisticDoubleToggle` | ExercisesPage.tsx:52-55 | two optimistic updates of one exercise leave the second value, still not synced |
| `ExercisesPage.ToggleConfirmed` | ExercisesPage.tsx:48-55 | a toggle whose reply echoes the request ends with the toggled value, synced |
| `ExercisesPage.PageCallbacks` | ExercisesPage.tsx:40-56 | the page gives the queue `onMutate` and `onSuccess`, and no `onError` and no `onSettled` |
| `ExercisesPage.ApplyEvent` | ExercisesPage.tsx:48-55 | only the page's `onMutate` (optimistic write) and its queue-level `onSuccess` (confirmed write) change the cached list; executor starts, per-call callbacks and every other callback leave it unchanged; a missing list stays missing |
| `ExercisesPage.PageSuccessChain` | ExercisesPage.tsx:40-51 | with the page's callbacks and no overrides, a success runs only the page's `onSuccess` |
| `ExercisesPage.PageFailureChain` | ExercisesPage.tsx:40-56 | with the page's callbacks and no per-call overrides, a failed request runs no callback at all |
| `ExercisesPage.PageSettleCache` | ExercisesPage.tsx:40-55 | when the page's queue settles a record without per-call callbacks, a success writes the reply's `isDone` with `isNotSynced = false`; a failure leaves the cache as it was, so the optimistic write stays, still not synced, since the page has no `onError` |
| `ExercisesPage.Confirm` | ExercisesPage.tsx:48-51 | settling a started record of the page's queue with a reply calls exactly the page's `onSuccess` once and removes the record; the invariant is kept |
| `ExercisesPage.DoubleToggleCache` | ExercisesPage.tsx:40-55 | after two presses confirmed by the server, the cache holds the second value, synced |
| `ExercisesPage.PressTwice` | ExercisesPage.tsx:40-56 | two presses before anything settles run both optimistic hooks in order but start only the first request; the second waits, not in flight |
| `ExercisesPage.DoubleToggle` | ExercisesPage.tsx:40-56 | the two requests start in press order, the second only after the first settled; the trace is exactly as listed; the queue ends idle |

## Left out

- React machinery is not modelled: `useRef`, `useEffect`, the dependency array and re-render timing. Callers invoke `Schedule` after `Submit` and `Settle`. There is no claim that the effect re-runs, and no liveness claim.
- `useMutation` and `mutateAsync` are not modelled. Starting the executor is the `Executed` event, and its result is the `Outcome` given to `Settle`.
- Callbacks that throw are not modelled. The `.catch` would also catch a throwing `onSuccess`; every callback here is a non-throwing trace event.
- The `undefined` context argument passed to every callback is not modelled; it carries no information.
- The `if (!nextMutation)` early return (useQueueMutations.ts:39-41) is not modelled. A non-empty queue always has a head record, so that branch never runs.
- The `console.log` of the queue length (useQueueMutations.ts:103) is I/O and is not modelled.
- QueuedMutation.MutationQueue.Submit: the call is one atomic step, so the model cannot show that `onMutate` sees the queue before the append. It shows that the `onMutate` event is the only event of the call.
- ExercisesPage.OnMutateUpdate: the cache write happens at the `Mutated` event. In the code, `onMutate` is async: it awaits `queryClient.cancelQueries`, and `queue` does not await it. The real write can therefore land after later events. That interleaving is not modelled.
- `Alert.alert`, `fakeApi`, `useQuery`, `useMutationState`, the JSX and the styles are I/O or UI and are not modelled.
- `fakeApi.ts` and `Exercise.tsx` are not part of this model. `IExercise`'s fields other than `id`, `isDone` and `isNotSynced` are one opaque `rest` map. The server reply is reduced to the `id` and `isDone` that `onSuccess` reads.
- The model fixes the page queue's error type to `string`. In the code it is `unknown`, because the page passes no type arguments and has no `onError`; the error value is never read on the page.
