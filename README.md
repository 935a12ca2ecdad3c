# Cancellable promises, modelled in Dafny

This project models the cancellable-promise layer of an iOS conferencing client
(`Utils/CacnellablePromise.swift`). The layer wraps a PromiseKit promise and adds three things:

- a monotonic `isCancelled` flag;
- an abort callback, and a list of `subsequentCancels` callbacks that cancel the children created by chaining;
- a hidden cancel token, `Promise<Void>`.

The promise it exposes is `when(body(token), while: token)`: it settles as the body's promise
does, unless the token rejects first. `cancel()` rejects the token one turn of the main queue
later. `deinit` fulfils the token.

The model has four modules:

- `Settlements` (Settlements.dfy): promise states (`Pending`, `Fulfilled(v)`, `Rejected(e)`),
  the error values (including `CancellablePromiseError.cancelled`), single-assignment resolution,
  and the PromiseKit operations the layer is built from (`map`, `compactMap`, `asVoid`, `then`,
  `race`, `when(fulfilled:)`, `when(resolved:)`). The combinators are step functions: each step
  sees the current settlements of the inputs and the previous outcome.
- `WhenWhile` (WhenWhile.dfy): the outcome rule of `when(_:while:)` over a history of
  observations of the promise and the condition. It proves the rule's three outcomes. It also
  proves that the source's own composition,
  `when(fulfilled: [p.asVoid(), race([p.asVoid(), c.asVoid()])]).map { p.value! }`,
  computes exactly this rule, and that the force-unwrap only runs on a fulfilled promise.
- `Cancellable` (Cancellable.dfy): the `CancellablePromise` class, the main queue as an
  explicit FIFO of deferred token actions, `cancelAll`, chaining, the derived promises, the
  combinators and their `autoCancel` `.ensure` blocks. A ghost history ties each object's
  `state` to the `WhenWhile` rule, so the rule's lemmas apply to every object.
- `Scenarios` (Scenarios.dfy): concrete runs on the main queue, each ending in the outcome the
  code determines. They cover cancel twice, cancel before resolution, a throwing resolver,
  `asCancellable`, cancel after fulfilment, disposal, chaining on a cancelled parent, `map`,
  and `race` with `autoCancel`.

Closures are named by the `Callback` datatype: `CancelOf(id)` is the `cancel` method of
promise `id`, `Abort(tag)` is a caller's abort callback, and `NoOp` is `{ }`. A method that
invokes callbacks returns them in the order it invokes them. The main queue
(`DispatchQueue.main.async`) is `MainQueue`, a FIFO of `RejectToken(id)` and
`FulfillToken(id)` actions. The environment's events are method calls: `SettleBody` is the
body's resolver, and `RunDeferred` is the queue running an action.

## Where the code differs from what one might expect

The model follows the code in each case.

- One might expect `cancel()` to be idempotent, with the abort callback firing at most once.
  The code has no guard (Utils/CacnellablePromise.swift:37-46): every call while pending
  invokes the abort callback again and queues another token rejection. `Cancel` and
  `Scenarios.CancelTwiceWhilePending` show two aborts and two queued rejections. The second
  rejection changes nothing, because the token resolves only once.
- One might expect the subsequent cancels to run only on the first call while pending. The
  code runs them on every call (line 39). They are registered only by the closure of `then`, which
  runs on the fulfilled value (lines 139-144), so a promise that has subsequent cancels has
  fulfilled and its `cancel()` never also aborts. `Valid()` carries this invariant.
- Cancelling a settled promise does not release the token. It is released only by `deinit`
  (lines 74-80).
- The combinators and `asCancellable` are built with `init(wrapper:)`, so their abort
  callback is `{ }`. Cancelling a composite cancels its inputs only through the `autoCancel`
  `.ensure` block. That block runs once the composite has settled, either because its inner
  promise settled or because the composite itself was cancelled
  (`Scenarios.RaceCancelledAutoCancel`).

## Model

| member | source | states |
|---|---|---|
| Settlements.CancellablePromiseError.IsCancelled | Utils/CacnellablePromise.swift:210-223 | every value of the error enum reports `isCancelled` as true |
| Settlements.Resolve | Utils/CacnellablePromise.swift:59-68 | a resolver's first resolution takes effect and a later one is ignored, so a body that resolved and then threw keeps its resolution |
| Settlements.Map | Utils/CacnellablePromise.swift:103-105 | the mapped promise is pending exactly while the parent is, passes the parent's error on, fulfils with the transformed value when the transform returns one, and rejects with the transform's own thrown error when it throws |
| Settlements.CompactMap | Utils/CacnellablePromise.swift:107-110 | the promise is pending exactly while the parent is and passes the parent's error on; a `Some(u)` result fulfils it with `u`, a nil result rejects it, and a thrown error rejects it with that error |
| Settlements.CompactMapOfSomeIsMap | Utils/CacnellablePromise.swift:103-110 | a `compactMap` whose transform never yields nil equals the `map` of that transform |
| Settlements.AsVoid | Utils/CacnellablePromise.swift:112-114 | `asVoid` keeps the timing and the error and forgets the value |
| Settlements.FlatMap | Utils/CacnellablePromise.swift:139-146 | the chained promise stays pending while the parent is pending and passes the parent's error on; on a fulfilled parent it takes the settlement of the promise the closure produced, or rejects with the error the closure threw |
| Settlements.FlatMapOfFulfilledIsMap | Utils/CacnellablePromise.swift:139-146 | chaining a body that returns an already fulfilled promise is a `map` |
| Settlements.RaceStep | Utils/CacnellablePromise.swift:122-124 | `race` settles with some input's settlement once any input settles, stays pending while all are pending, and keeps a settled outcome |
| Settlements.RaceOfTwo | Utils/CacnellablePromise.swift:156 | the race of the promise and the condition takes the promise's settlement if it has one, else the condition's |
| Settlements.AllStep | Utils/CacnellablePromise.swift:175-177 | `when(fulfilled:)` fulfils with all values in input order exactly when every input is fulfilled, and rejects exactly when some input rejects, with that input's error |
| Settlements.ResolvedStep | Utils/CacnellablePromise.swift:194-197 | `when(resolved:)` never rejects, and fulfils with every input's settlement in order exactly when all have settled |
| WhenWhile.WhenStep | Utils/CacnellablePromise.swift:155-159 | one step of the rule: a settled outcome is final; otherwise the promise's own settlement wins, and only a rejected condition settles the outcome while the promise is pending. The lemmas below state its meaning over whole histories |
| WhenWhile.WhenOutcome | Utils/CacnellablePromise.swift:155-159 | the outcome is pending before anything is observed; it is fulfilled only with a settlement the promise itself showed, and rejected only with an error that the promise or the condition showed. `WhenOutcomeCases` and the lemmas after it state the full rule |
| WhenWhile.Unwrap | Utils/CacnellablePromise.swift:157 | `promise.value!` gives the value exactly when the promise has fulfilled and traps otherwise; `WhenFulfilledOnlyByPromise` shows the trap is never reached |
| WhenWhile.ComposedWhen | Utils/CacnellablePromise.swift:156 | in the source's composition, `when(fulfilled:)` settles only once the `race` has settled, and the final `map` is pending exactly while `when(fulfilled:)` is. `ComposedWhenIsWhenOutcome` states that the composition equals the rule |
| WhenWhile.Inner | Utils/CacnellablePromise.swift:123-125 | the history of the inner `when(_, while: cancelPromise)` of a combinator has one observation per step of the outer one; `InnerAt` states what each one holds |
| WhenWhile.InnerAt | Utils/CacnellablePromise.swift:123-125 | at every step the inner promise shows the outcome of the wait so far, under the condition of that step |
| WhenWhile.WhenOutcomeCases | Utils/CacnellablePromise.swift:155-159 | the outcome is pending only while the promise is pending and the condition has not rejected; once settled it is the promise's own settlement or the error of a condition that rejected while the promise was pending |
| WhenWhile.WhenFulfilledOnlyByPromise | Utils/CacnellablePromise.swift:156-158 | the outcome is fulfilled only with the promise's own value, so `promise.value!` never meets nil |
| WhenWhile.WhenFollowsPromise | Utils/CacnellablePromise.swift:155-159 | when the condition never rejects ahead of the promise, the outcome is the promise's settlement: its value even if the condition fulfilled first, its error if it rejected |
| WhenWhile.WhenConditionWins | Utils/CacnellablePromise.swift:155-159 | a condition that rejects while the promise is pending makes the outcome reject with the condition's error for good |
| WhenWhile.WhenOutcomeBeforeCondition | Utils/CacnellablePromise.swift:155-159 | until the condition's rejection arrives, the outcome can only be pending or that same rejection |
| WhenWhile.DisposalNeverCancels | Utils/CacnellablePromise.swift:74-80 | a token that is only ever fulfilled, as `deinit` does, never turns the outcome into a cancellation |
| WhenWhile.ComposedWhenIsWhenOutcome | Utils/CacnellablePromise.swift:155-159 | the source's composition of `race`, `when(fulfilled:)` and `map` equals the `when(_:while:)` rule at every point of every history, and its `when(fulfilled:)` fulfils only after the promise has fulfilled |
| WhenWhile.WhenTwice | Utils/CacnellablePromise.swift:229-233 | a body that itself waits on the token, as in `asCancellable` and the combinators, ends exactly as a single wait would |
| Cancellable.TokenResolution | Utils/CacnellablePromise.swift:43-45 | the deferred action of `cancel()` rejects the token with `.cancelled`, and the one of `deinit` fulfils it |
| Cancellable.MainQueue.Async | Utils/CacnellablePromise.swift:43-45 | a deferred action runs after everything already enqueued |
| Cancellable.MainQueue.Next | Utils/CacnellablePromise.swift:77-79 | deferred actions run one at a time in the order they were enqueued |
| Cancellable.CancellablePromise.CancelEffect | Utils/CacnellablePromise.swift:39-41 | one `cancel()` invokes every subsequent cancel in list order and then, only while pending, the abort callback |
| Cancellable.CancellablePromise.Using | Utils/CacnellablePromise.swift:49-57 | a new promise is not cancelled, has no subsequent cancels and a pending token, and mirrors the wrapped promise |
| Cancellable.CancellablePromise.Wrapper | Utils/CacnellablePromise.swift:70-72 | `init(wrapper:)` has the no-op abort callback |
| Cancellable.CancellablePromise.FromResolver | Utils/CacnellablePromise.swift:59-68 | the body's returned closure is the abort callback; a throwing body rejects the promise with the thrown error and leaves a no-op abort callback |
| Cancellable.CancellablePromise.Cancel | Utils/CacnellablePromise.swift:37-47 | sets `isCancelled` (it is never reset), invokes the subsequent cancels in order on every call, and only while pending invokes the abort callback and enqueues the token's rejection behind the queued actions; the settlement does not change during the call |
| Cancellable.CancellablePromise.Dispose | Utils/CacnellablePromise.swift:74-80 | `deinit` enqueues the token's fulfilment and nothing else |
| Cancellable.CancellablePromise.SettleBody | Utils/CacnellablePromise.swift:49-51 | the body takes its first settlement; the promise takes it too unless it has already settled, and stays as it was while the body is pending |
| Cancellable.CancellablePromise.RunDeferred | Utils/CacnellablePromise.swift:43-45 | the deferred rejection cancels a promise that is still pending; a token fulfilment, or any action on a settled promise, leaves the outcome unchanged |
| Cancellable.CancellablePromise.Adopt | Utils/CacnellablePromise.swift:139-145 | runs only on a fulfilled parent; a child produced after the parent was cancelled is cancelled at once (its cancel effect is invoked, and only a pending child aborts and queues its token rejection), otherwise the child and the queue are untouched; the child's cancel is always appended to the parent's subsequent cancels |
| Cancellable.CancellablePromise.Then | Utils/CacnellablePromise.swift:138-149 | the promise `then` returns is cancelled through the parent's `cancel` |
| Cancellable.CancellablePromise.SettleChain | Utils/CacnellablePromise.swift:139-147 | the body of the promise `then` returned is the `FlatMap` of the parent's settlement and the closure's outcome, taken once; the promise follows it unless already settled |
| Cancellable.CancellablePromise.Map | Utils/CacnellablePromise.swift:103-105 | the mapped promise carries the transformed settlement and is cancelled through the parent's `cancel` |
| Cancellable.CancellablePromise.CompactMap | Utils/CacnellablePromise.swift:107-110 | as `map`, with nil rejecting |
| Cancellable.CancellablePromise.AsVoid | Utils/CacnellablePromise.swift:112-114 | `asVoid` is the `map` to the unit value, cancelled through the parent |
| Cancellable.CancelAll | Utils/CacnellablePromise.swift:95-99 | cancels every listed promise in order: all end cancelled, the invoked callbacks are each promise's cancel effect in list order, each pending promise aborts once per listing, and one rejection per pending listing is queued |
| Cancellable.OccurrencesCountListings | Utils/CacnellablePromise.swift:95-99 | the per-listing abort count `CancelAll` states is the multiplicity of the promise in the multiset of the list |
| Cancellable.EnsureCancelAll | Utils/CacnellablePromise.swift:118-135 | once the composite has settled, whether its inner promise settled or the composite was cancelled, `autoCancel` cancels every input, the winner included, with the same effects, abort counts and queued rejections as `cancelAll`; without it nothing is cancelled |
| Cancellable.EnsureCancel | Utils/CacnellablePromise.swift:161-169 | `when(_:while:autoCancel:)` cancels the awaited cancellable promise when `autoCancel` is set, counting an abort and queuing its rejection only while it is pending, and otherwise leaves it alone |
| Cancellable.Race | Utils/CacnellablePromise.swift:122-131 | the race composite has a no-op abort callback and settles as `race` of its inputs |
| Cancellable.WhenFulfilled | Utils/CacnellablePromise.swift:175-188 | the `when(fulfilled:)` composite has a no-op abort callback and settles as `when(fulfilled:)` of its inputs |
| Cancellable.WhenResolved | Utils/CacnellablePromise.swift:194-208 | the `when(resolved:)` composite has a no-op abort callback and settles as `when(resolved:)` of its inputs |
| Cancellable.AsCancellable | Utils/CacnellablePromise.swift:229-242 | a plain promise becomes a cancellable one with a no-op abort callback that mirrors the promise |
| Scenarios.CancelTwiceWhilePending | Utils/CacnellablePromise.swift:37-46 | two cancels while pending call the abort callback twice, and the promise ends rejected with `.cancelled` |
| Scenarios.CancelBeforeResolution | Utils/CacnellablePromise.swift:37-68 | a resolver promise cancelled before it resolves calls its abort callback and ends cancelled, and a later fulfilment with 42 is ignored |
| Scenarios.ThrowingResolver | Utils/CacnellablePromise.swift:59-68 | a throwing resolver body yields a promise rejected with the thrown error, whose cancel invokes and queues nothing |
| Scenarios.CancelAsCancellable | Utils/CacnellablePromise.swift:229-233 | a cancelled `asCancellable` wrapper ends rejected with `.cancelled` even though its abort callback does nothing, and disposal afterwards changes nothing |
| Scenarios.CancelAfterFulfilment | Utils/CacnellablePromise.swift:37-46 | cancelling a fulfilled promise sets the flag, aborts nothing, queues nothing and keeps the value |
| Scenarios.DisposeWhilePending | Utils/CacnellablePromise.swift:74-80 | disposal of a pending promise leaves it pending, and its later fulfilment comes through |
| Scenarios.ThenAfterCancel | Utils/CacnellablePromise.swift:37-46 | a parent cancelled while pending aborts and queues its rejection; when its body fulfils first, the child its `then` closure produces is cancelled at once and registered, and the late rejection leaves the parent fulfilled |
| Scenarios.ChainCancelReachesChild | Utils/CacnellablePromise.swift:138-149 | cancelling the promise `then` returned invokes the parent's cancel; the fulfilled parent's cancel invokes only the registered child's cancel, which aborts the pending child |
| Scenarios.ThenFollowsChild | Utils/CacnellablePromise.swift:139-147 | the promise `then` returned stays pending while the produced child is pending and takes the child's value once it fulfils |
| Scenarios.ThenRejections | Utils/CacnellablePromise.swift:139-147 | a throwing `then` closure rejects the returned promise with the thrown error, and a rejected parent passes its own error on |
| Scenarios.MapOfFulfilled | Utils/CacnellablePromise.swift:103-105 | `map` of a promise fulfilled with 4 by doubling is fulfilled with 8 |
| Scenarios.MapCancelsParent | Utils/CacnellablePromise.swift:103-105 | a pending mapped promise's cancel invokes the parent's cancel, which aborts the pending parent |
| Scenarios.RaceFirstSettled | Utils/CacnellablePromise.swift:122-124 | a race over a pending and a fulfilled promise is fulfilled with the latter's value |
| Scenarios.RaceAutoCancel | Utils/CacnellablePromise.swift:125-129 | the `autoCancel` block of a settled race cancels both inputs, and only the pending loser aborts and queues a rejection |
| Scenarios.RaceCancelledAutoCancel | Utils/CacnellablePromise.swift:118-130 | a `race` with `autoCancel` cancelled while its input is pending ends rejected with `.cancelled`, and its `.ensure` block then aborts the pending input and queues its rejection |

## Left out

- Invoking a callback is recorded, not run. A recorded `CancelOf(id)` stands for that promise's `Cancel`. The model does not run that cancel by itself; `Adopt`, where the source calls `cancel()` on the child directly, is the exception. A cycle of chained registrations, which would recurse without end in Swift, is therefore not modelled.
- Derived promises (`map`, `compactMap`, `asVoid`, the combinators, `asCancellable`) take their inputs' settlements at the moment they are created. A later settlement of an input reaches them through `SettleBody`. The promise `then` returns settles through `SettleChain`, which the caller runs with the parent's settlement and the closure's outcome. The model does not link the objects.
- PromiseKit's own hops onto the main queue, when handlers and `.ensure` blocks run, are not modelled. Only the token actions of `cancel()` and `deinit` go through `MainQueue`.
- SettleBody, Using, Cancel: the outer promise ends in `.map { promise.value! }` (line 156), which runs one turn of the main queue after the body settles. The model settles `state` at once instead. In the source, a `cancel()` in that turn still finds the promise pending, invokes the abort callback and queues a token rejection that arrives too late to change anything (the case of the comment at line 42). In the model, `Cancel` on a promise whose body has fulfilled neither aborts nor queues, so `CancelAfterFulfilment` describes the state after that turn.
- The combinators take one observation per step. Inputs that settle within the same observation are ordered by list position.
- `race` over an empty list rejects with `BadInput`, as PromiseKit 6 does. PromiseKit is not part of this model.
- `deinit` runs when ARC releases the object. Here it is the explicit `Dispose`, and the time it runs is up to the caller. `Dispose` requires that no token rejection of the promise is still queued, since the queued block holds the promise alive (lines 43-45). The model does not stop a caller from calling `Cancel` after `Dispose`, which the source rules out because a released object cannot be called.
- `asPromise`, `pipe`, `result`, the `Thenable`/`CatchMixin` conformance, `Guarantee` conversion, and the `on:`, `file` and `line` parameters are PromiseKit plumbing. They are left out.
- `Guarantee.asCancellable` converts the guarantee to a promise that never rejects and then behaves as `Promise.asCancellable`. `Cancellable.AsCancellable` covers both.
- Stories/ConferenceCall/ConferenceCallViewController.swift, Utils/BackgroundVideoPlayer.swift, AppDelegate.swift and Stories/ConferenceCall/ConferenceCallModel.swift are UI, playback and bootstrap code. They are not part of this model.
