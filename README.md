# jpromise deferred engine in Dafny

This project models the core of jpromise, a deferred/promise library for Java.
A `DeferredObject` holds its own `state` (Pending, Resolved or Rejected) and a
list of progress callbacks. It also holds an underlying Netty future, which
stores the result or the cause and owns the single listener list shared by
done, fail, always, then and map. `MultipleDeferredObject` is the promise that
`all` returns. It has an index-addressed results array and a done counter.

How the model is laid out:

- `promises.dfy` (module `Promises`): the `State` enum of `Promise`, values,
  causes, and the callback outcomes. User callbacks are opaque ids. What a
  map, then-done or pipe callback returns or throws is given by an `Oracles`
  parameter. Plain done, fail, always and progress callbacks are recorded in
  a log of invocations.
- `aggregate.dfy` (module `Aggregate`): the bookkeeping of
  `MultipleDeferredObject`. One input's done callback is `OnInputDone`.
  `Replay` replays a sequence of input successes in any completion order.
- `settlement.dfy` (module `Settlement`): the semantics of every operation
  of `DeferredObject`, written as functions over a closed store.
  - The store, `World`, is a sequence of deferred records plus the log.
  - The Netty future is a settle-once cell with a listener list, on the
    immediate executor. A listener added to a completed cell runs at once.
    Completing a cell runs its listeners in registration order, depth first.
  - Settling one deferred can settle others, through chained listeners,
    pipe wiring and aggregate callbacks. This cascade is a family of mutually
    recursive functions. Its termination measure is the number of
    still-incomplete cells.
- `settlement_lemmas.dfy`: properties of resolve, reject, the four
  registration forms and progress.
- `chaining_lemmas.dfy`: properties of then/map/pipe. These include a frame
  argument: no listener except the parent's touches a fresh child.
- `aggregate_lemmas.dfy`: properties of `all` and of the aggregate's
  callbacks.
- `aggregate_run.dfy`: `all` over the whole store. Inputs resolve one by
  one, in any order, and the aggregate follows `Replay`; the first input that
  fails rejects the aggregate at once with its cause.
- `deferred_object.dfy` (module `DeferredObjects`): the imperative form.
  - `DeferredStore` is a class whose fields are the deferred records and the
    log. Its methods update those fields in place.
  - Each method, loops included, is proved to leave exactly the store that
    the matching function of `Settlement` computes. Every lemma about those
    functions therefore applies to the methods too.
  - The loops are the notification loop, the `setProgress` loop and the
    `MultipleDeferredObject` constructor loop.

Three behaviours of the code differ from the usual promise semantics, where a
settled promise never changes and progress stops once it settles. The model
keeps them as the code has them:

- `reject` refuses only an already Rejected deferred, so a Resolved deferred
  can still be rejected. Its state becomes Rejected. The settle-once future
  keeps the success, so `getResult` still returns the value and `getCause`
  stays null.
- `setProgress` does not consult the state. It calls the progress callbacks
  even on a settled deferred.
- Resolving a deferred does not run its progress callbacks.

## Model

| member | source | states |
|---|---|---|
| Aggregate.Fresh | src/main/java/com/enblink/jpromise/MultipleDeferredObject.java:24-26 | the constructor's results array has one slot per input, every slot is null, and the counter starts at 0 |
| Aggregate.OnInputDone | src/main/java/com/enblink/jpromise/MultipleDeferredObject.java:33-46 | on a Resolved aggregate the done callback changes nothing and does not resolve; otherwise it writes slot `index` only, keeps every other slot, and adds one to the counter; it asks for resolve exactly when the aggregate is not Resolved and the counter reaches N |
| Aggregate.ReplayFillsByIndex | src/main/java/com/enblink/jpromise/MultipleDeferredObject.java:28-46 | after the done callbacks of distinct inputs ran in any order, slot i holds input i's result (null if input i has not completed), the counter equals the number of completed inputs and never exceeds N, and the aggregate is resolved exactly when all N completed, with the results in input order |
| Settlement.Settle | src/main/java/com/enblink/jpromise/DeferredObject.java:286-287 | completing a pending deferred's future gives it the new cell, lowers the number of incomplete futures, never changes a completed future, never moves a state back, keeps the store well formed and coherent, and appends only log entries that agree with the futures they name |
| Settlement.NotifyAll | src/main/java/com/enblink/jpromise/DeferredObject.java:86-89 | running a completed future's listeners one after the other keeps the same monotonicity, well-formedness and coherence |
| Settlement.Notify | src/main/java/com/enblink/jpromise/DeferredObject.java:367-386 | one listener run (operationComplete for a chained child, the done/fail/always wrappers, the pipe wiring, the aggregate callbacks) keeps the same monotonicity, well-formedness and coherence |
| Settlement.RunStep | src/main/java/com/enblink/jpromise/DeferredObject.java:388-423 | executeCallback with pipePromise keeps the same monotonicity, well-formedness and coherence |
| Settlement.JoinInputDone | src/main/java/com/enblink/jpromise/MultipleDeferredObject.java:33-46 | the aggregate's done callback keeps the same monotonicity, well-formedness and coherence, including when it resolves the aggregate |
| Settlement.Register | src/main/java/com/enblink/jpromise/DeferredObject.java:199-206 | adding a listener (run at once on a completed future, appended otherwise) keeps the same monotonicity, well-formedness and coherence |
| Settlement.Resolve | src/main/java/com/enblink/jpromise/DeferredObject.java:281-290 | resolve never moves any state back, never changes a completed future, and keeps the store well formed and coherent |
| Settlement.Reject | src/main/java/com/enblink/jpromise/DeferredObject.java:298-306 | reject never moves any state back except Resolved to Rejected, never changes a completed future, and keeps the store well formed and coherent |
| Settlement.Done | src/main/java/com/enblink/jpromise/DeferredObject.java:195-209 | done keeps the store well formed and coherent and only grows it monotonically |
| Settlement.Fail | src/main/java/com/enblink/jpromise/DeferredObject.java:212-225 | fail keeps the store well formed and coherent and only grows it monotonically |
| Settlement.Always | src/main/java/com/enblink/jpromise/DeferredObject.java:228-238 | always keeps the store well formed and coherent and only grows it monotonically |
| Settlement.Chained | src/main/java/com/enblink/jpromise/DeferredObject.java:148-177 | then/map create exactly one new deferred, whose id is fresh, and keep the store well formed |
| Settlement.Then | src/main/java/com/enblink/jpromise/DeferredObject.java:148-155 | then(pipe) returns a fresh deferred and adds exactly one deferred to the store |
| Settlement.ThenDo | src/main/java/com/enblink/jpromise/DeferredObject.java:159-167 | then(done) returns a fresh deferred and adds exactly one deferred to the store |
| Settlement.Map | src/main/java/com/enblink/jpromise/DeferredObject.java:170-177 | map returns a fresh deferred and adds exactly one deferred to the store |
| Settlement.All | src/main/java/com/enblink/jpromise/DeferredObject.java:68-74 | all fails with IllegalArgumentException exactly when the input array is empty; otherwise it returns a fresh aggregate and adds exactly one deferred |
| Settlement.WireInputs | src/main/java/com/enblink/jpromise/MultipleDeferredObject.java:28-57 | the constructor's loop keeps the store well formed and coherent and only grows it monotonically |
| Settlement.WireInput | src/main/java/com/enblink/jpromise/MultipleDeferredObject.java:33-55 | one round of that loop (done callback, then fail callback) keeps the store well formed and coherent and only grows it monotonically |
| Settlement.GetResult | src/main/java/com/enblink/jpromise/DeferredObject.java:135-138 | getResult is the success value when the future has succeeded and null otherwise (while incomplete or after a failure) |
| Settlement.GetCause | src/main/java/com/enblink/jpromise/DeferredObject.java:141-144 | getCause is present exactly when the future has failed, and is then its cause |
| SettlementLemmas.ResolvePending | src/main/java/com/enblink/jpromise/DeferredObject.java:281-290 | resolve on a Pending deferred completes its future with the value: it leaves Pending for good, getResult then returns the value (null for resolve()) and getCause null |
| SettlementLemmas.ResolveSettledIsNoop | src/main/java/com/enblink/jpromise/DeferredObject.java:284 | resolve on a deferred that is not Pending changes nothing |
| SettlementLemmas.RejectPending | src/main/java/com/enblink/jpromise/DeferredObject.java:298-306 | reject on a Pending deferred makes it Rejected for good: getCause then returns the cause and getResult null |
| SettlementLemmas.RejectRejectedIsNoop | src/main/java/com/enblink/jpromise/DeferredObject.java:300 | reject on an already Rejected deferred changes nothing |
| SettlementLemmas.RejectAfterResolve | src/main/java/com/enblink/jpromise/DeferredObject.java:300-303 | the reject guard lets a Resolved deferred through: only its state changes, to Rejected; getResult keeps the value, getCause stays null, and no callback runs |
| SettlementLemmas.SettlementIsFinal | src/main/java/com/enblink/jpromise/DeferredObject.java:136-145 | once a future has completed, no later resolve or reject changes getResult or getCause of any deferred; after either call a settled state never returns to Pending, and a Rejected one stays Rejected |
| SettlementLemmas.ResolveRejectKeepLogConsistent | src/main/java/com/enblink/jpromise/DeferredObject.java:199-234 | after resolve or reject, every logged callback invocation still agrees with its deferred's future: done and chained callbacks saw its success value, fail callbacks its cause, always callbacks a completed future |
| SettlementLemmas.NoCallbackOfTheOtherOutcome | src/main/java/com/enblink/jpromise/DeferredObject.java:199-222 | no fail callback has run on a deferred that succeeded; no done or chained callback has run on one that failed; only progress callbacks run on an incomplete one |
| SettlementLemmas.NullCallbackIsNoop | src/main/java/com/enblink/jpromise/DeferredObject.java:182-230 | done, fail, always and progress with a null callback change nothing |
| SettlementLemmas.DoneRegistration | src/main/java/com/enblink/jpromise/DeferredObject.java:195-209 | done on an incomplete future appends the listener and runs nothing; on a resolved future the callback runs at once with the result; on a failed future it never runs |
| SettlementLemmas.FailRegistration | src/main/java/com/enblink/jpromise/DeferredObject.java:212-225 | fail on an incomplete future appends the listener; on a failed future the callback runs at once with the cause; on a resolved future it never runs |
| SettlementLemmas.AlwaysRegistration | src/main/java/com/enblink/jpromise/DeferredObject.java:228-238 | always on an incomplete future appends the listener; on a completed future, whichever way it completed, the callback runs at once |
| SettlementLemmas.NotifyAllRunsPlain | src/main/java/com/enblink/jpromise/DeferredObject.java:199-234 | when a future completes, each of its done/fail/always listeners that matches the outcome gets its invocation logged |
| SettlementLemmas.ResolveRunsRegisteredCallbacks | src/main/java/com/enblink/jpromise/DeferredObject.java:281-290 | resolving a Pending deferred runs every done callback registered before with the result, and every always callback; no fail callback of it ever runs |
| SettlementLemmas.RejectRunsRegisteredCallbacks | src/main/java/com/enblink/jpromise/DeferredObject.java:298-306 | rejecting a Pending deferred runs every fail callback registered before with the cause, and every always callback; no done, then or map callback of it ever runs |
| Settlement.Clamp | src/main/java/com/enblink/jpromise/DeferredObject.java:252-253 | the progress value handed out is in 0..100: the value itself in range, 0 below, 100 above |
| Settlement.SetProgress | src/main/java/com/enblink/jpromise/DeferredObject.java:250-262 | setProgress changes no deferred and only appends progress invocations on this deferred, each with a value in 0..100 (the exact list, in order, is SettlementLemmas.SetProgressCallsEach) |
| Settlement.Progress | src/main/java/com/enblink/jpromise/DeferredObject.java:180-192 | progress with a null callback changes nothing; otherwise it changes nothing but this deferred's progress list, which only grows, and logs at most one invocation (which case does what is SettlementLemmas.ProgressRegistration) |
| SettlementLemmas.SetProgressCallsEach | src/main/java/com/enblink/jpromise/DeferredObject.java:250-262 | setProgress calls every registered progress callback exactly once, in list order, with the clamped value, whatever the state, and changes nothing else |
| SettlementLemmas.ProgressRegistration | src/main/java/com/enblink/jpromise/DeferredObject.java:180-192 | progress on a Resolved deferred runs the callback at once with 100; on a Pending one the only change is the callback appended to its progress list, and nothing runs; on a Rejected one it does nothing |
| SettlementLemmas.ProgressKeepsInvariants | src/main/java/com/enblink/jpromise/DeferredObject.java:180-192 | progress keeps the store well formed and coherent and its log consistent |
| ChainingLemmas.ResolveFrame | src/main/java/com/enblink/jpromise/DeferredObject.java:281-290 | resolving d leaves alone the state and future of any other deferred that no listener refers to |
| ChainingLemmas.RejectFrame | src/main/java/com/enblink/jpromise/DeferredObject.java:298-306 | rejecting d leaves alone the state and future of any other deferred that no listener refers to |
| ChainingLemmas.ResolveUntouched | src/main/java/com/enblink/jpromise/DeferredObject.java:281-290 | resolve on a Pending deferred that no listener refers to leaves it Resolved, with the value when its future was incomplete: nothing the cascade runs can reject it afterwards |
| ChainingLemmas.RejectUntouched | src/main/java/com/enblink/jpromise/DeferredObject.java:298-306 | reject on a deferred that is not Rejected and that no listener refers to leaves it Rejected, with the cause when its future was incomplete, and still nothing refers to it |
| ChainingLemmas.SettleUntouched | src/main/java/com/enblink/jpromise/DeferredObject.java:286-287 | completing the future of a deferred that no listener refers to: the cascade leaves its new state and result as they were set, and nothing refers to it afterwards |
| ChainingLemmas.RunStepLogsCall | src/main/java/com/enblink/jpromise/DeferredObject.java:388-411 | executeCallback with a callback set calls it on the parent's result |
| ChainingLemmas.NotifyAllLogsChain | src/main/java/com/enblink/jpromise/DeferredObject.java:367-386 | when a future succeeds, every chained listener with a callback in its list gets the callback called on the result |
| ChainingLemmas.ChainedRunsCallback | src/main/java/com/enblink/jpromise/DeferredObject.java:148-177 | then/map with a callback on a parent that succeeds, before or after the call, run the callback on the parent's result |
| ChainingLemmas.NotifyFires | src/main/java/com/enblink/jpromise/DeferredObject.java:367-423 | one listener acting on its pending target settles it as the reference definition `Fires` says: a parent failure rejects with the same cause, map resolves with the callback's value, then-done and a null pipe resolve with null, a throw rejects with what was thrown |
| ChainingLemmas.NotifyAllFires | src/main/java/com/enblink/jpromise/DeferredObject.java:367-423 | in a listener list, the first listener acting on a pending target that nothing else refers to settles it as `Fires` says, and no later listener changes that |
| ChainingLemmas.ResolveFires | src/main/java/com/enblink/jpromise/DeferredObject.java:281-290 | resolving a Pending parent settles a dependent target as its first acting listener's `Fires` outcome |
| ChainingLemmas.RejectFires | src/main/java/com/enblink/jpromise/DeferredObject.java:298-306 | rejecting a Pending parent settles a dependent target as its first acting listener's `Fires` outcome |
| ChainingLemmas.NotifySettles | src/main/java/com/enblink/jpromise/DeferredObject.java:367-423 | one listener acting on a pending target that nothing refers to completes it with its `Fires` outcome and leaves it Resolved on a success and Rejected on a failure |
| ChainingLemmas.NotifyAllSettles | src/main/java/com/enblink/jpromise/DeferredObject.java:367-386 | in a listener list where exactly one listener acts on a pending target that nothing else refers to, the target ends with that listener's `Fires` outcome, Resolved on a success and Rejected on a failure |
| ChainingLemmas.SettleSettles | src/main/java/com/enblink/jpromise/DeferredObject.java:286-287 | completing a Pending parent whose listener k alone acts on a dependent pending target leaves the target with k's `Fires` outcome and the matching state |
| ChainingLemmas.ResolveSettles | src/main/java/com/enblink/jpromise/DeferredObject.java:281-290 | resolve on a Pending parent whose listener k alone acts on a dependent pending target leaves the target with k's `Fires` outcome, Resolved on a success and Rejected on a failure |
| ChainingLemmas.RejectSettles | src/main/java/com/enblink/jpromise/DeferredObject.java:298-306 | reject on a Pending parent whose listener k alone acts on a dependent pending target leaves the target with k's `Fires` outcome, Resolved on a success and Rejected on a failure |
| ChainingLemmas.ChainedOnCompleted | src/main/java/com/enblink/jpromise/DeferredObject.java:148-177 | then/map on an already completed parent return a new deferred, distinct from the parent, that at once gets the `Fires` outcome of the parent's result and the callback, and ends Resolved on a success outcome and Rejected on a failure |
| ChainingLemmas.ChainedOnPending | src/main/java/com/enblink/jpromise/DeferredObject.java:148-177 | then/map on a Pending parent return a new pending deferred, distinct from the parent; the chained listener is the parent's last one and the only listener that refers to the child; nothing is logged |
| ChainingLemmas.ChainedThenSettled | src/main/java/com/enblink/jpromise/DeferredObject.java:367-411 | when a Pending parent with a chained child later completes, the child gets the same `Fires` outcome as if the parent had completed first, and ends Resolved on a success outcome and Rejected on a failure |
| ChainingLemmas.MapOutcome | src/main/java/com/enblink/jpromise/Promise.java:94-113 | map's child ends Rejected with the parent's cause when the parent fails, Resolved with the callback's return value, or Rejected with what the callback throws, whether the parent completed before or after map; when the parent succeeds, the callback has run on its result |
| ChainingLemmas.ThenDoOutcome | src/main/java/com/enblink/jpromise/Promise.java:64-92 | then(done)'s child ends Rejected with the parent's cause when the parent fails, Resolved with null after the callback returns, or Rejected with what the callback throws; when the parent succeeds, the callback has run on its result |
| ChainingLemmas.ThenPipeOutcome | src/main/java/com/enblink/jpromise/Promise.java:28-35 | then(pipe)'s child ends Rejected with the parent's cause when the parent fails, Resolved with null when the callback returns null, or Rejected with what the callback throws |
| ChainingLemmas.RunStepWiresPipe | src/main/java/com/enblink/jpromise/DeferredObject.java:416-423 | a pipe callback returning a pending promise p logs the callback's call on the parent's result, adds done(child::resolve) and then fail(child::reject) to p, and changes no other deferred |
| ChainingLemmas.PipeWiresReturnedPromise | src/main/java/com/enblink/jpromise/DeferredObject.java:388-423 | then(pipe) on a resolved parent whose callback returns a pending promise p only adds the child and the two wiring listeners on p |
| ChainingLemmas.PipeFollowsReturnedPromise | src/main/java/com/enblink/jpromise/Promise.java:28-35 | then(pipe) on a parent that has already succeeded: the pipelining promise stays pending until the returned promise p settles, and then ends Resolved with p's result or Rejected with p's cause |
| ChainingLemmas.NotifyAllWiresPipe | src/main/java/com/enblink/jpromise/DeferredObject.java:367-423 | when a parent succeeds, the listeners before its chained pipe listener leave the child and the returned promise p alone, and the chained listener wires p to the child: done(child::resolve) and fail(child::reject) become p's last two listeners and the only ones that refer to the child, and the child is unchanged |
| ChainingLemmas.ResolveWiresPipe | src/main/java/com/enblink/jpromise/DeferredObject.java:281-290 | resolve on a Pending parent whose last listener is a pipe chain to the child wires the returned pending promise p to the child, which stays as it was |
| ChainingLemmas.ResolveAfterThenWiresPipe | src/main/java/com/enblink/jpromise/DeferredObject.java:148-157 | then(pipe) on a Pending parent, then resolve of the parent: the callback runs once the parent resolves, its returned promise p gets the two wiring listeners, and the child is still pending |
| ChainingLemmas.PipedSettles | src/main/java/com/enblink/jpromise/DeferredObject.java:414-423 | a child wired to the pending promise p ends with p's result, Resolved, when p resolves, and with p's cause, Rejected, when p is rejected |
| ChainingLemmas.PipeFollowsReturnedPromiseAfterThen | src/main/java/com/enblink/jpromise/Promise.java:28-35 | then(pipe) on a parent that is still pending: after the parent resolves the pipelining promise is still pending, and once the returned promise p settles it ends Resolved with p's result or Rejected with p's cause |
| AggregateLemmas.WireInputOnPending | src/main/java/com/enblink/jpromise/MultipleDeferredObject.java:33-55 | on a pending input, one round of the constructor's loop appends the done callback for slot k and then the fail callback, and nothing else |
| AggregateLemmas.WireInputsOnPending | src/main/java/com/enblink/jpromise/MultipleDeferredObject.java:28-57 | over pending inputs, the constructor's loop gives input j the done callback for slot j and the fail callback, and only adds listeners |
| AggregateLemmas.AllOnPending | src/main/java/com/enblink/jpromise/MultipleDeferredObject.java:19-57 | all over pending inputs returns a new Pending aggregate with N null slots and counter 0, logs nothing, and wires each input j to slot j |
| AggregateLemmas.AllOnPendingOnlyAddsListeners | src/main/java/com/enblink/jpromise/MultipleDeferredObject.java:28-57 | all over pending inputs changes no existing deferred except by appending listeners |
| AggregateLemmas.InputDoneOnPending | src/main/java/com/enblink/jpromise/MultipleDeferredObject.java:37-45 | on a Pending aggregate, input i's success writes slot i and bumps the counter; below N nothing else changes and the aggregate stays Pending; at N it leaves Pending and its future succeeds with the results array |
| AggregateLemmas.InputDoneOnResolved | src/main/java/com/enblink/jpromise/MultipleDeferredObject.java:37 | once the aggregate is Resolved, a later input success changes nothing |
| AggregateLemmas.InputDoneOnRejected | src/main/java/com/enblink/jpromise/MultipleDeferredObject.java:37-45 | once the aggregate is Rejected, a later input success may still fill its slot, but the aggregate stays Rejected with its cause |
| AggregateLemmas.InputFail | src/main/java/com/enblink/jpromise/MultipleDeferredObject.java:47-55 | an input failure rejects a Pending aggregate with that input's cause at once, does nothing to a Rejected one, and turns a Resolved one's state to Rejected through reject's loose guard |
| AggregateRun.NotifyAllPlain | src/main/java/com/enblink/jpromise/DeferredObject.java:199-234 | running done, fail and always listeners changes no deferred; only the log grows |
| AggregateRun.NotifyAllAppend | src/main/java/com/enblink/jpromise/DeferredObject.java:86-89 | notifying the list `ls1 + ls2` is notifying `ls1`, then `ls2` on the resulting store |
| AggregateRun.JoinInputDoneOnPending | src/main/java/com/enblink/jpromise/MultipleDeferredObject.java:33-46 | on a Pending aggregate with only plain callbacks, input j's done callback changes only the aggregate: new bookkeeping, and Resolved with the results array when the counter reaches N |
| AggregateRun.JoinCallbacksOnSuccess | src/main/java/com/enblink/jpromise/MultipleDeferredObject.java:33-55 | on an input success, the done callback updates the Pending aggregate and the fail callback does nothing |
| AggregateRun.ResolveWiredInput | src/main/java/com/enblink/jpromise/MultipleDeferredObject.java:33-46 | resolve(v) on an input wired to slot j of a Pending aggregate: the input is Resolved with v, slot j gets v, the counter goes up by one, the aggregate is Resolved with the results array exactly when the counter reaches N, and no other deferred changes |
| AggregateRun.JoinCallbacksOnFailure | src/main/java/com/enblink/jpromise/MultipleDeferredObject.java:33-55 | on an input failure, the done callback does nothing and the fail callback rejects the Pending aggregate with the same cause |
| AggregateRun.FailCallbackRejects | src/main/java/com/enblink/jpromise/MultipleDeferredObject.java:47-55 | the aggregate's fail callback on an input failure rejects a Pending aggregate with that cause, runs its plain callbacks, and changes no other deferred |
| AggregateRun.RejectWiredInput | src/main/java/com/enblink/jpromise/MultipleDeferredObject.java:47-55 | reject(e) on an input wired to slot j of a Pending aggregate: the input and the aggregate are both Rejected with e, the aggregate's slots and counter stay as they were, and no other deferred changes |
| AggregateRun.WireInputsAppends | src/main/java/com/enblink/jpromise/MultipleDeferredObject.java:28-57 | over pending inputs, the constructor's loop leaves exactly the listener lists of `AppendJoins` and logs nothing |
| AggregateRun.AppendJoinsDistinct | src/main/java/com/enblink/jpromise/MultipleDeferredObject.java:28-57 | over distinct inputs, each input j gets exactly the done callback for slot j and the fail callback appended, and every other deferred stays as it was |
| AggregateRun.WiredStep | src/main/java/com/enblink/jpromise/MultipleDeferredObject.java:37-45 | one more input resolving while the aggregate is Pending moves the store one step of `Replay` along |
| AggregateRun.ResolveEachWired | src/main/java/com/enblink/jpromise/MultipleDeferredObject.java:33-46 | resolving distinct inputs in any order keeps the aggregate's bookkeeping, state and future equal to what `Replay` gives for them |
| AggregateRun.AllWired | src/main/java/com/enblink/jpromise/DeferredObject.java:68-74 | all over distinct pending inputs with only plain callbacks leaves a fresh Pending aggregate, distinct from every input, with every input wired to its own slot |
| AggregateRun.AppendedWired | src/main/java/com/enblink/jpromise/MultipleDeferredObject.java:19-57 | the constructor over distinct pending inputs leaves the aggregate with N null slots and counter 0, and each input wired to its own slot |
| AggregateRun.AllResolvesWhenEveryInputResolves | src/main/java/com/enblink/jpromise/MultipleDeferredObject.java:19-57 | after all over distinct pending inputs, resolving inputs in any order fills slot i with input i's value and leaves null elsewhere, the counter counts the resolved inputs, and the aggregate stays Pending until the N-th input resolves, when it becomes Resolved with the results in input order |
| AggregateRun.WiredReject | src/main/java/com/enblink/jpromise/MultipleDeferredObject.java:47-55 | while an input has not resolved, fewer than N inputs have, so the aggregate is still Pending; rejecting that input and the aggregate leaves the aggregate Rejected with the slots the resolved inputs filled, and the other unresolved inputs pending |
| AggregateRun.AllRejectsWhenAnInputFails | src/main/java/com/enblink/jpromise/MultipleDeferredObject.java:19-57 | after all over distinct pending inputs and any number of input resolutions, reject(e) on an input that has not resolved rejects the aggregate at once with cause e, its slots holding what the resolved inputs gave, while every other unresolved input is still pending |
| DeferredObjects.DeferredStore.NewDeferred | src/main/java/com/enblink/jpromise/DeferredObject.java:86-107 | `new DeferredObject()` appends a Pending deferred with an incomplete future and keeps the invariant |
| DeferredObjects.DeferredStore.Settle | src/main/java/com/enblink/jpromise/DeferredObject.java:286-287 | in place, exactly `Settlement.Settle` |
| DeferredObjects.DeferredStore.NotifyAll | src/main/java/com/enblink/jpromise/DeferredObject.java:86-89 | the notification loop leaves exactly the store of `Settlement.NotifyAll` |
| DeferredObjects.DeferredStore.Notify | src/main/java/com/enblink/jpromise/DeferredObject.java:367-386 | in place, exactly `Settlement.Notify` |
| DeferredObjects.DeferredStore.RunStep | src/main/java/com/enblink/jpromise/DeferredObject.java:388-423 | in place, exactly `Settlement.RunStep` |
| DeferredObjects.DeferredStore.JoinInputDone | src/main/java/com/enblink/jpromise/MultipleDeferredObject.java:33-46 | in place, exactly `Settlement.JoinInputDone` |
| DeferredObjects.DeferredStore.Register | src/main/java/com/enblink/jpromise/DeferredObject.java:199-206 | in place, exactly `Settlement.Register` |
| DeferredObjects.DeferredStore.Resolve | src/main/java/com/enblink/jpromise/DeferredObject.java:281-290 | returns this, leaves exactly `Settlement.Resolve`'s store, and keeps the invariant |
| DeferredObjects.DeferredStore.Reject | src/main/java/com/enblink/jpromise/DeferredObject.java:298-306 | returns this, leaves exactly `Settlement.Reject`'s store, and keeps the invariant |
| DeferredObjects.DeferredStore.Done | src/main/java/com/enblink/jpromise/DeferredObject.java:195-209 | returns this and leaves exactly `Settlement.Done`'s store |
| DeferredObjects.DeferredStore.Fail | src/main/java/com/enblink/jpromise/DeferredObject.java:212-225 | returns this and leaves exactly `Settlement.Fail`'s store |
| DeferredObjects.DeferredStore.Always | src/main/java/com/enblink/jpromise/DeferredObject.java:228-238 | returns this and leaves exactly `Settlement.Always`'s store |
| DeferredObjects.DeferredStore.RunProgressCallback | src/main/java/com/enblink/jpromise/DeferredObject.java:323-332 | one logged progress invocation; nothing else changes, whatever the callback throws |
| DeferredObjects.DeferredStore.Progress | src/main/java/com/enblink/jpromise/DeferredObject.java:180-192 | returns this, appends to the progress list in place, and leaves exactly `Settlement.Progress`'s store |
| DeferredObjects.DeferredStore.SetProgress | src/main/java/com/enblink/jpromise/DeferredObject.java:250-262 | returns this; the loop over the progress list leaves exactly `Settlement.SetProgress`'s store |
| DeferredObjects.DeferredStore.Chained | src/main/java/com/enblink/jpromise/DeferredObject.java:148-177 | in place, exactly `Settlement.Chained`, returning the child |
| DeferredObjects.DeferredStore.Then | src/main/java/com/enblink/jpromise/DeferredObject.java:148-155 | returns a child distinct from this, leaves `Settlement.Then`'s store, and keeps the invariant |
| DeferredObjects.DeferredStore.ThenDo | src/main/java/com/enblink/jpromise/DeferredObject.java:159-167 | returns a child distinct from this, leaves `Settlement.ThenDo`'s store, and keeps the invariant |
| DeferredObjects.DeferredStore.Map | src/main/java/com/enblink/jpromise/DeferredObject.java:170-177 | returns a child distinct from this, leaves `Settlement.Map`'s store, and keeps the invariant |
| DeferredObjects.DeferredStore.All | src/main/java/com/enblink/jpromise/DeferredObject.java:68-74 | IllegalArgumentException (None, store unchanged) exactly for an empty array; otherwise the aggregate and the store of `Settlement.All`, with the invariant kept |
| DeferredObjects.DeferredStore.WireAggregate | src/main/java/com/enblink/jpromise/MultipleDeferredObject.java:28-57 | the constructor's loop leaves exactly the store of `Settlement.WireInputs` |
| DeferredObjects.DeferredStore.WireInput | src/main/java/com/enblink/jpromise/MultipleDeferredObject.java:33-55 | one round of that loop leaves exactly `Settlement.WireInput`'s store |
| DeferredObjects.ChainedKeepsValid | src/main/java/com/enblink/jpromise/DeferredObject.java:148-177 | then and map keep the store well formed, coherent and its log consistent |

## Left out

- The Netty `DefaultPromise` and its executors are not part of this model. They become a settle-once cell with one listener list, on the immediate executor. "First completion wins" and registration-order firing are assumptions of the model, not facts proved about Netty.
- A second completion of a Netty future throws `IllegalStateException`. In the model it is ignored. This matters for `reject` on a Resolved deferred: the source sets the state to Rejected and then the future refuses the failure. The model keeps the state change and the success, but not the exception.
- Netty's limit on listener nesting depth, and its queueing of listeners added while notifying, are not modelled. Dispatch is depth first and unbounded.
- Executors other than the immediate one (the `DeferredObject(EventExecutor)` constructor, `GlobalEventExecutor`) are left out. Listeners always run synchronously.
- Threads, `synchronized` blocks and the `AtomicInteger` counter are left out. Every step is sequential.
- The bodies of user callbacks are unknown code. Map, then-done and pipe callbacks become the `Oracles` parameter. Done, fail, always and progress callbacks are only logged. Exceptions they throw are swallowed (Netty logs listener exceptions, and `runProgressCallback` drops them), so they are not modelled.
- `reject(null)` is not modelled: a cause is never null. In the source (DeferredObject.java:300-303) `reject(null)` sets the state to Rejected, and then the Netty future refuses a null cause by throwing. That leaves a Rejected deferred whose future is still incomplete, and the exception reaches the caller.
- A null array passed to `all` or to the `MultipleDeferredObject` constructor is not modelled, because a sequence cannot be null. Null elements of the array are also left out, because every input is an id of the store.
- A pipe callback that builds a new deferred and returns it is modelled by a deferred of the store created beforehand and named by `PromiseOf(p)`. That deferred is settled later by the same resolve or reject. Nothing refers to it before the callback returns it, so this is the same as creating it inside the callback.
- A promise returned by a pipe callback that is not a deferred of the store stays foreign. The child then stays pending within the model.
- The results array of `MultipleDeferredObject` is shared by reference with whoever receives the resolved value. The model stores it as a value, so later writes to slots after resolution are not seen by that receiver.
- `isRejected`/`isResolved`/`isPending`/`getState` are direct reads of the `state` field and have no members of their own. `promise()` is the identity. `all(List)` only converts a list to an array. The generic casts have no counterpart.
- SettlementLemmas.ResolveRunsRegisteredCallbacks: proves that each registered done or always callback is invoked, not that it is invoked exactly once. The same holds for SettlementLemmas.RejectRunsRegisteredCallbacks.
- ChainingLemmas.PipeFollowsReturnedPromise: proved when the returned promise is still pending and only the pipe wiring refers to the child. An already settled returned promise is covered by the immediate run of `Register` and is not stated as a separate lemma.
- ChainingLemmas.PipeFollowsReturnedPromiseAfterThen: proved when no listener refers to the returned promise before the parent resolves, as for a deferred the callback builds. A returned promise that other chains already follow is not covered by a scenario lemma.
- Aggregate.ReplayFillsByIndex: proved for runs in which no input fails. Failures are covered one callback at a time by AggregateLemmas.InputFail and AggregateLemmas.InputDoneOnRejected.
- AggregateRun.AllResolvesWhenEveryInputResolves: proved for distinct inputs that carry only done, fail and always callbacks, with nothing registered on the aggregate, and with no input failing. A failing input is covered by AggregateRun.AllRejectsWhenAnInputFails. Other listener mixes are covered one callback at a time by the AggregateLemmas members.
- AggregateRun.AllRejectsWhenAnInputFails: proved under the same conditions, for the first input that fails. Later resolutions and failures are covered one callback at a time by AggregateLemmas.InputDoneOnRejected and AggregateLemmas.InputFail.
