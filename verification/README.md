# Promise settlement state machine, in Dafny

A model of the two promise classes of a small C# promise library: the generic
`Promise<T>` and the payload-less `Promise`. A promise is pending, resolved or
rejected. It keeps a saved value and a saved exception, and two parallel FIFO
lists of callbacks (`m_resolvers`, `m_rejectors`) registered while it was
pending. Three kinds of operation drive it:

- **registration** (`InvokeResolverRejected`) queues a (resolver, rejector)
  pair while pending, or replays it at once against the saved outcome;
- **settlement** (`Resolve`, `Reject`) records the outcome and then pops and
  runs only the oldest queued pair (`InvokePendingResolver`,
  `InvokePendingRejector`);
- **chaining** (`Then`, `Catch`) creates a fresh downstream promise and
  registers a pair that settles it.

Modules:

- `Outcomes` (outcomes.dfy): exceptions, call completions, settlements.
- `PromiseState` (promise_state.dfy): the state machine of `Promise<T>` as
  pure steps. Callbacks are opaque ids. An `Oracle` says whether invoking one
  returns or throws. Each step returns the new state, the invocations it made
  in order, and the exception that escapes the call.
- `PromiseRuns` (promise_runs.dfy): sequences of calls, the executor
  constructor, and the properties that hold across calls.
- `UntypedPromise` (untyped_promise.dfy): the payload-less class, as the same
  machine at `T = ()`.
- `Chaining` (chaining.dfy): each `Then`/`Catch` overload as a
  `Continuation`. A continuation is two pure maps from the argument to the
  effect on the downstream promise: no effect, one settlement, or an escaping
  exception. `Deliver` combines the upstream outcome with the route by which
  the pair is reached. A pair popped by `Resolve` has a catch that hands a
  resolver's exception to the paired rejector. A pair replayed on an
  already-resolved promise has no such catch.
- `ChainingLaws` (chaining_laws.dfy): what every overload does downstream. It
  also proves that `Deliver` agrees with the state machine on both routes.

The model follows the code as written. Some of its behaviour is easy to
overlook:

- `Resolve` and `Reject` have no already-settled guard. A later call overrides
  the earlier outcome.
- A settlement call serves at most one queued pair. Other pairs stay queued
  until later settlement calls.
- When a queued `onSuccess` of `Then(Func<T, IPromise<TResult>>)` throws, the
  exception goes to the paired rejector. With no `onError`, that rejects the
  downstream promise. With an `onError`, the exception is passed to `onError`,
  and the downstream promise follows `onError`'s inner promise. When the pair
  is replayed on an already-resolved promise, the exception escapes to the
  caller of `Then` instead.
- With no `onError`, the payload-less class's `Then<TResult>(Func<IPromise<TResult>>)`
  drops an upstream rejection instead of forwarding it (Promise.cs:374).
  The same overload also swallows a throwing `onSuccess` when its pair is
  popped from the queue. The catch in `InvokePendingResolver` hands the
  exception to the rejector, and the rejector drops it, so nothing escapes and
  the downstream promise stays pending forever. Replayed on an
  already-resolved promise, the same exception escapes to the caller of
  `Then`.
- The `Then` overloads taking `Action` handlers never settle the promise they
  return.
- `Promise<T>` has no `Then(Func<T, TResult>)` overload, so a value-mapping
  handler cannot be chained directly. The chain laws are stated for the
  overloads that exist.

## Model

| member | source | states |
|---|---|---|
| PromiseState.Fresh | Promise.cs:44-47 | The parameterless constructor yields a pending promise with both lists empty, and that state is valid. |
| PromiseState.Resolve | Promise.cs:54-60 | Whatever the prior status, the result is `Resolved` with saved value `v`, and the saved error is untouched. Given paired lists, at most the oldest pair is removed, from index 0 of both lists, and the rest keep their order. That pair's resolver is invoked with `v`. If it throws `x`, the paired rejector is invoked with `x`, and only what the rejector throws escapes. With nothing queued, nothing is invoked. |
| PromiseState.Reject | Promise.cs:62-68 | Whatever the prior status, the result is `Rejected` with saved error `e`, and the saved value is untouched. At most the oldest pair is removed. Only its rejector is invoked, with `e`, and what it throws escapes. |
| PromiseState.InvokePendingResolver | Promise.cs:70-89 | Removes index 0 of both lists, or nothing when `m_resolvers` is empty. Invokes the resolver with the saved value, and on a throw the paired rejector. An unpaired `m_rejectors` makes the `[0]` access fail with `ArgumentOutOfRange` before anything runs. Status and saved fields are unchanged. |
| PromiseState.InvokePendingRejector | Promise.cs:91-101 | Removes index 0 of both lists, or nothing when `m_rejectors` is empty, and invokes the rejector with the saved error, uncaught. An empty `m_resolvers` makes its `RemoveAt(0)` fail with `ArgumentOutOfRange` before the rejector runs. |
| PromiseState.Register | Promise.cs:103-121 | While pending, appends the resolver and the rejector to the ends of their lists and invokes nothing. Once resolved, invokes exactly the resolver with the saved value. Once rejected, invokes exactly the rejector with the saved error. A settled state is left unchanged, and a replayed resolver's exception escapes uncaught. |
| PromiseRuns.Run | Promise.cs:54-68 | Over any sequence of `Resolve`, `Reject` and registration calls, a resolved status always has a saved value and a rejected status always has a saved error, because every settlement call sets them together. |
| PromiseRuns.RunKeepsValid | Promise.cs:70-121 | Over any sequence of `Resolve`, `Reject` and registration calls, and any delegate behaviour, `m_resolvers` and `m_rejectors` stay the same length. So `ArgumentOutOfRange` escapes only when a delegate itself threw it. |
| PromiseRuns.SettlementsServeInOrder | Promise.cs:70-101 | When no delegate throws, the i-th settlement call invokes the i-th queued pair, one pair per call. That is the resolver for `Resolve(v)` and the rejector for `Reject(e)`. Calls beyond the queue invoke nothing, and unserved pairs stay queued in order. |
| PromiseRuns.QuietSettlement | Promise.cs:70-101 | One settlement call where no delegate throws serves exactly the oldest pair, if any, and removes it from both lists. Nothing escapes, and the state stays valid. |
| PromiseRuns.QueueOne | Promise.cs:103-112 | One registration on a pending promise appends its pair to both lists and invokes nothing. |
| PromiseRuns.RegistrationsQueueInOrder | Promise.cs:103-112 | Registrations on a pending promise invoke nothing and leave status and saved fields alone. Their pairs are appended in call order after the earlier entries, which keep their place. |
| PromiseRuns.SettlingWithEmptyQueues | Promise.cs:54-68 | With nothing queued, settlement calls invoke nothing and let nothing escape. The last call decides the status and saved field. |
| PromiseRuns.SettledStatesAgree | Promise.cs:54-68 | With nothing queued, the state reached by settlement calls does not depend on how delegates behave. |
| PromiseRuns.Construct | Promise.cs:30-42 | An executor that throws `x` leaves the promise `Rejected` with saved error `x`, even if it called `Resolve` first. An executor that returns leaves the status set by its last call, or `Pending` if it made none. Nothing is queued afterwards. |
| PromiseRuns.ConstructionIsSilent | Promise.cs:30-42 | While the executor runs, no delegate is invoked and no exception escapes its `resolve`/`reject` calls, whatever the delegates would do. |
| PromiseRuns.OnePairPerSettlement | Promise.cs:54-121 | With pairs 1 and 2 queued, `Resolve(v)` serves only pair 1. Pair 3, registered next, is replayed immediately while pair 2 waits. A following `Reject(e)` overrides the resolution and serves pair 2's rejector. |
| UntypedPromise.Resolve | Promise.cs:301-306 | The status is `Resolved` whatever it was before. The oldest queued resolver, if any, is invoked with no payload. If it returns, nothing else is invoked and nothing escapes. If it throws `x`, its paired rejector is invoked with `x`, and what the rejector throws escapes `Resolve()`. At most the oldest pair is removed, and the lists stay paired. |
| UntypedPromise.Reject | Promise.cs:308-314 | The status is `Rejected` with saved error `e`. Only the oldest queued rejector is invoked, with `e`, and what it throws escapes. |
| UntypedPromise.InvokePendingResolver | Promise.cs:316-335 | With `m_resolvers` empty, nothing changes and nothing is invoked. Otherwise it removes the pair at index 0 of both lists and invokes the resolver with no argument. If the resolver returns, that is the only call. If it throws `x`, the catch passes `x` to the paired rejector, and only what the rejector throws escapes. An unpaired `m_rejectors` fails with `ArgumentOutOfRange` and invokes nothing. Status and saved error are unchanged. |
| UntypedPromise.InvokePendingRejector | Promise.cs:337-347 | With `m_rejectors` empty, nothing changes and nothing is invoked. Otherwise it removes the pair at index 0 of both lists and invokes only the rejector, with the saved error, uncaught, so what the rejector throws escapes. An empty `m_resolvers` makes its `RemoveAt(0)` fail with `ArgumentOutOfRange` before the rejector runs. Status and saved fields are unchanged. |
| UntypedPromise.Register | Promise.cs:349-367 | While pending, appends the pair. Once resolved, invokes the resolver with no argument. Once rejected, invokes the rejector with the saved error. The lists of a settled promise are untouched. |
| Chaining.Deliver | Promise.cs:70-121 | No contract of its own. It composes a pair's two halves with the route that reaches it: the catch at lines 80-87 for a queued resolver, and none for a pair replayed at lines 113-120. `ChainingLaws.QueuedResolveDelivers`, `ChainingLaws.QueuedRejectDelivers` and `ChainingLaws.ReplayDelivers` prove it agrees with the state machine. |
| Chaining.ThenPromise | Promise.cs:123-150 | No contract of its own. It is the pair registered by `Then(Func<T, IPromise<TResult>>, onError)`. `ChainingLaws.ThenPromiseMapsOutcome` and `ChainingLaws.ThenForwardsRejection` state its behaviour. |
| Chaining.ThenPromiseNoArg | Promise.cs:152-170 | No contract of its own. It is the pair registered by `Then(Func<IPromise<TResult>>, onError)` of `Promise<T>`. `ChainingLaws.ThenPromiseNoArgMapsOutcome` and `ChainingLaws.ThenForwardsRejection` state its behaviour. |
| Chaining.ThenAction | Promise.cs:172-182 | No contract of its own. It is the pair registered by `Then(Action<T>, onError)`. `ChainingLaws.ThenActionNeverSettles` states its behaviour. |
| Chaining.ThenActionNoArg | Promise.cs:184-194 | No contract of its own. It is the pair registered by `Then(Action, onError)`, the same in the payload-less class (lines 381-391). `ChainingLaws.ThenActionNoArgNeverSettles` and `ChainingLaws.UntypedThenActionNeverSettles` state its behaviour. |
| Chaining.ThenUntypedPromise | Promise.cs:196-206 | No contract of its own. It is the pair registered by `Then(Func<IPromise>, onError)`, the same in the payload-less class (lines 393-403). `ChainingLaws.ThenUntypedPromiseSettlesOnlyOnSuccess` and `ChainingLaws.UntypedThenUntypedPromiseSettlesOnlyOnSuccess` state its behaviour. |
| Chaining.CatchAction | Promise.cs:208-230 | No contract of its own. It is the pair registered by `Catch(Action<Exception>)`, the same in the payload-less class (lines 417-439). `ChainingLaws.CatchActionMapsOutcome` and `ChainingLaws.UntypedCatchMapsOutcome` state its behaviour. |
| Chaining.CatchValue | Promise.cs:232-253 | No contract of its own. It is the pair registered by `Catch(Func<Exception, T>)`. `ChainingLaws.CatchValueMapsOutcome` states its behaviour. |
| Chaining.UntypedThenPromise | Promise.cs:369-379 | No contract of its own. It is the pair registered by the payload-less class's `Then<TResult>(Func<IPromise<TResult>>, onError)`. `ChainingLaws.UntypedThenPromiseDropsRejection` states its behaviour. |
| Chaining.UntypedThenValue | Promise.cs:405-415 | No contract of its own. It is the pair registered by the payload-less class's `Then<T>(Func<T>, onError)`. `ChainingLaws.UntypedThenValueMapsOutcome` states its behaviour. |
| ChainingLaws.QueuedResolveDelivers | Promise.cs:70-89 | For a pair popped by `Resolve(v)`, the last invocation has exactly the downstream effect `Deliver(Queued, Fulfil(v), k)`, and exactly that effect's exception escapes `Resolve`. This covers the resolver throwing and falling back to its rejector. |
| ChainingLaws.QueuedRejectDelivers | Promise.cs:91-101 | A pair popped by `Reject(e)` has the downstream effect `Deliver(route, Fail(e), k)` on either route, and that effect's exception escapes. |
| ChainingLaws.ReplayDelivers | Promise.cs:113-120 | A pair registered on a settled promise has the effect `Deliver(Replayed, outcome, k)` for the saved outcome. A resolver's exception is not routed to the rejector. |
| ChainingLaws.CatchValueMapsOutcome | Promise.cs:232-253 | On either route: if upstream resolves with `v`, downstream resolves with `v`. If upstream rejects and the handler returns `r`, downstream resolves with `r`. If the handler throws `x`, downstream rejects with `x`. |
| ChainingLaws.CatchActionMapsOutcome | Promise.cs:208-230 | If upstream resolves, downstream resolves. If upstream rejects, downstream resolves when the handler returns and rejects with `x` when the handler throws `x`. |
| ChainingLaws.UntypedCatchMapsOutcome | Promise.cs:417-439 | The payload-less `Catch` always settles its downstream promise. The downstream promise is rejected exactly when the upstream rejected and the handler threw. |
| ChainingLaws.ThenForwardsRejection | Promise.cs:123-170 | With no `onError`, both promise-returning `Then` overloads of `Promise<T>` reject the downstream promise with the upstream error unchanged, on either route and whatever `onSuccess` is. |
| ChainingLaws.ThenPromiseMapsOutcome | Promise.cs:123-150 | Downstream follows the inner promise returned by `onSuccess` or `onError`, and a throwing `onError` rejects it. A throwing `onSuccess` reaches the rejector when the pair is queued, but escapes when it is replayed. Nothing escapes unless the pair is replayed and `onSuccess` throws. |
| ChainingLaws.ThenPromiseNoArgMapsOutcome | Promise.cs:152-170 | With or without an `onError`: on success, downstream follows `onSuccess()`'s inner promise. A throwing `onSuccess` escapes when the pair is replayed. When the pair is queued, the exception goes to the rejector, exactly as an upstream rejection with that exception would, so with no `onError` downstream is rejected with it. On rejection with an `onError`, downstream follows `onError`'s inner promise. If `onError` throws, the exception escapes uncaught, and downstream is not rejected. |
| ChainingLaws.UntypedThenPromiseDropsRejection | Promise.cs:369-379 | With no `onError`, an upstream rejection has no effect downstream. With one, downstream follows its inner promise, and its exception escapes. On success, downstream follows `onSuccess`'s inner promise. A throwing `onSuccess` escapes when replayed. When queued, it reaches the rejector like an upstream rejection, so with no `onError` it has no effect at all: nothing escapes and downstream stays pending. |
| ChainingLaws.ThenActionNeverSettles | Promise.cs:172-182 | `Then(Action<T>, onError)` never settles its downstream promise on any route or outcome. A replayed `onSuccess` exception escapes. |
| ChainingLaws.ThenActionNoArgNeverSettles | Promise.cs:184-194 | `Then(Action, onError)` of `Promise<T>` never settles its downstream promise. |
| ChainingLaws.UntypedThenActionNeverSettles | Promise.cs:381-391 | `Then(Action, onError)` of the payload-less class never settles its downstream promise. On rejection, only the optional `onError` runs. A replayed resolution runs only `onSuccess`, and its exception escapes. |
| ChainingLaws.ThenUntypedPromiseSettlesOnlyOnSuccess | Promise.cs:196-206 | On either route, `Then(Func<IPromise>, onError)` settles downstream exactly when upstream resolved, `onSuccess` returned, and its inner promise settles. It then relays that inner promise's outcome. An upstream rejection, or an `onSuccess` that throws, never settles downstream. |
| ChainingLaws.UntypedThenUntypedPromiseSettlesOnlyOnSuccess | Promise.cs:393-403 | In the payload-less class, the downstream promise is settled exactly when upstream resolved, `onSuccess` returned, and the inner promise settles. It then relays that inner promise's outcome. |
| ChainingLaws.UntypedThenValueMapsOutcome | Promise.cs:405-415 | `Then<T>(Func<T>, onError)` settles downstream exactly when upstream resolved and `onSuccess` returned. It then resolves downstream with the returned value. |
| ChainingLaws.RejectionShortCircuits | Promise.cs:128-133 | In `a.Then(f).Then(g)` with no error handlers, a rejection of `a` rejects both downstream promises with the original error, once the pair each `Then` registered is reached. This holds whatever `f` and `g` are and on any routes. |
| ChainingLaws.CatchRecoversChain | Promise.cs:232-253 | In `a.Then(f).Catch(h)` where `h` returns `r`, a rejection of `a` ends with a resolution to `r`, once the pairs that `Then` and `Catch` registered are reached. |

## Left out

- `Test()` (Promise.cs:255-278) is a demo. It depends on Unity's `Debug.Log` and on float parsing.
- The fields `m_resolveAndReject`, `m_onResolved` and `m_onRejected`, and `SetResolveAndReleject` (Promise.cs:23-25, 49-52), are never read. They have no effect on behaviour.
- IPromise.cs declares interfaces only. It is not part of this model beyond naming the overloads.
- User delegates are modelled only by how they complete (return, or throw an exception id). An oracle gives that completion as a pure function of the invocation. A delegate that re-enters the same promise, for example a resolver calling `Resolve` on its own upstream, is not modelled.
- Thread safety is not modelled. The code has no locking, so the model assumes one sequential caller.
- C# overload resolution is not modelled. Each overload is its own Dafny function.
- A null list is modelled as an empty list. Both lists are created together, so `null` and empty differ only in the exception type (`NullReferenceException`) on the unpaired paths, which `PromiseRuns.RunKeepsValid` shows cannot be reached.
- Settling the downstream promise is assumed to complete normally. If the downstream promise's own queued delegates throw during that settlement, the `try` blocks in `Catch` and `Then` turn it into a `Reject` of the downstream promise. The model does not include that nested behaviour.
- A handler that returns `null` instead of a promise, which would make the relay call throw `NullReferenceException`, is not modelled.
- A promise returned by a handler is modelled only by whether and how it eventually settles the relay registered on it (`Eventual`). Whether the relay is reached depends on that inner promise's own queue, which is abstracted.
- The executor is modelled as the settlement calls it makes synchronously, followed by how it completes. Calls it makes later are ordinary `Resolve`/`Reject` calls on the promise. The model lets an exception from its own `resolve` call propagate, but none can arise, because nothing is queued during construction.
- PromiseState.InvokePendingResolver: requires a saved value when a paired entry is queued. Called directly before any `Resolve` with a pair queued, the public method would pass `default(T)`, which the model does not represent. With nothing queued, or an unpaired list, it is modelled without that requirement.
- PromiseState.InvokePendingRejector: requires a saved error when a paired entry is queued. Called directly before any `Reject` with a pair queued, the public method would pass `null`, which the model does not represent.
- UntypedPromise.InvokePendingRejector: the same requirement and the same gap as `PromiseState.InvokePendingRejector`. The public method called before any `Reject` with a pair queued would pass `null`.
- The sequences of calls in `PromiseRuns` (`Op`) are `Resolve`, `Reject` and registration. Direct calls to the public `InvokePendingResolver` and `InvokePendingRejector` are not among them, because such a call before any settlement needs the `default(T)`/`null` argument above.
- PromiseState.Register: requires that a settled status has its saved field set. Every state reachable by the public calls satisfies this (`PromiseRuns.Run`).
