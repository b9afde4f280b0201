/** What each combinator does to its downstream promise, for every upstream
    outcome and every handler outcome, and why `Deliver` is the right account
    of how the state machine reaches a registered pair. */
module ChainingLaws {
  import opened Outcomes
  import opened Chaining
  import P = PromiseState

  // ---------------------------------------------------------------------
  // `Deliver` against the state machine.

  /** How a delegate of the pair completes, as seen by the state machine: an
      escaping effect is a throw, anything else a normal return. */
  function CompletionOf<U>(eff: Effect<U>): Completion<()>
  {
    match eff
    case Escapes(x) => Throws(x)
    case _ => Returns(())
  }

  /** The state machine's view of the pair `k`: every resolver behaves like
      `k.onResolved`, every rejector like `k.onRejected`. */
  function OracleFor<T, U>(k: Continuation<T, U>): P.Oracle<T>
  {
    (inv: P.Invocation<T>) => match inv
      case InvokeResolver(_, v) => CompletionOf(k.onResolved(v))
      case InvokeRejector(_, e) => CompletionOf(k.onRejected(e))
  }

  /** The effect of one invocation of the pair. */
  function EffectOf<T, U>(k: Continuation<T, U>, inv: P.Invocation<T>): Effect<U>
  {
    match inv
    case InvokeResolver(_, v) => k.onResolved(v)
    case InvokeRejector(_, e) => k.onRejected(e)
  }

  /** The effect that stands at the end of a trace: the last invocation is the
      one whose effect is not overridden. */
  function LastEffect<T, U>(k: Continuation<T, U>, trace: seq<P.Invocation<T>>): Effect<U>
  {
    if trace == [] then NoEffect else EffectOf(k, trace[|trace| - 1])
  }

  /** A pair popped by `Resolve(v)` has the effect `Deliver(Queued, Fulfil(v), k)`,
      and exactly the exception that effect lets escape leaves `Resolve`. */
  lemma QueuedResolveDelivers<T, U>(s: P.State<T>, v: T, k: Continuation<T, U>)
    requires P.Paired(s) && s.resolvers != []
    ensures
      var r := P.Resolve(s, v, OracleFor(k));
      && LastEffect(k, r.trace) == Deliver(Queued, Fulfil(v), k)
      && r.escaped == EscapeOf(CompletionOf(Deliver(Queued, Fulfil(v), k)))
  {
    var r := P.Resolve(s, v, OracleFor(k));
    assert r.trace[0] == P.InvokeResolver(s.resolvers[0], v);
    if k.onResolved(v).Escapes? {
      assert r.trace[1] == P.InvokeRejector(s.rejectors[0], k.onResolved(v).error);
    }
  }

  /** A pair popped by `Reject(e)` has the effect `Deliver(route, Fail(e), k)`
      on either route. */
  lemma QueuedRejectDelivers<T, U>(s: P.State<T>, e: Exn, k: Continuation<T, U>, route: Route)
    requires P.Paired(s) && s.rejectors != []
    ensures
      var r := P.Reject(s, e, OracleFor(k));
      && LastEffect(k, r.trace) == Deliver(route, Fail(e), k)
      && r.escaped == EscapeOf(CompletionOf(Deliver(route, Fail(e), k)))
  {
  }

  /** A pair registered on a settled promise has the effect
      `Deliver(Replayed, outcome, k)` for the saved outcome. */
  lemma ReplayDelivers<T, U>(s: P.State<T>, a: P.CallbackId, b: P.CallbackId, k: Continuation<T, U>)
    requires P.Consistent(s) && s.status != P.Pending
    ensures
      var outcome := if s.status == P.Resolved then Fulfil(s.saved.value) else Fail(s.savedError.value);
      var r := P.Register(s, a, b, OracleFor(k));
      && LastEffect(k, r.trace) == Deliver(Replayed, outcome, k)
      && r.escaped == EscapeOf(CompletionOf(Deliver(Replayed, outcome, k)))
  {
  }

  // ---------------------------------------------------------------------
  // `Catch`.

  /** `Catch(Func<Exception, T>)`: an upstream value passes through; a
      rejection becomes the handler's return value, or the handler's own
      exception if it throws. The route makes no difference. */
  lemma CatchValueMapsOutcome<T>(route: Route, upstream: Settlement<T>, onError: Exn -> Completion<T>)
    ensures upstream.Fulfil? ==>
      Deliver(route, upstream, CatchValue(onError)) == Settles(Fulfil(upstream.value))
    ensures upstream.Fail? && onError(upstream.error).Returns? ==>
      Deliver(route, upstream, CatchValue(onError)) == Settles(Fulfil(onError(upstream.error).value))
    ensures upstream.Fail? && onError(upstream.error).Throws? ==>
      Deliver(route, upstream, CatchValue(onError)) == Settles(Fail(onError(upstream.error).error))
  {
  }

  /** `Catch(Action<Exception>)`: the downstream promise resolves unless the
      handler throws, and then rejects with what it threw. */
  lemma CatchActionMapsOutcome<T>(route: Route, upstream: Settlement<T>, onError: Exn -> Completion<()>)
    ensures upstream.Fulfil? ==>
      Deliver(route, upstream, CatchAction(onError)) == Settles(Fulfil(()))
    ensures upstream.Fail? ==>
      Deliver(route, upstream, CatchAction(onError)) ==
        (if onError(upstream.error).Returns? then Settles(Fulfil(())) else Settles(Fail(onError(upstream.error).error)))
  {
  }

  /** The payload-less class's `Catch(Action<Exception>)` maps outcomes the
      same way. */
  lemma UntypedCatchMapsOutcome(route: Route, upstream: Settlement<()>, onError: Exn -> Completion<()>)
    ensures Deliver(route, upstream, CatchAction(onError)).Settles?
    ensures Deliver(route, upstream, CatchAction(onError)).settlement.Fail? <==>
      upstream.Fail? && onError(upstream.error).Throws?
  {
  }

  // ---------------------------------------------------------------------
  // `Then` returning a promise of `TResult`.

  /** With no `onError`, both promise-returning `Then` overloads of `Promise<T>`
      forward an upstream rejection unchanged, and never call `onSuccess`. */
  lemma ThenForwardsRejection<T, U>(route: Route, e: Exn,
                                    f: T -> Completion<Eventual<U>>, g: Completion<Eventual<U>>)
    ensures Deliver(route, Fail(e), ThenPromise(f, None)) == Settles(Fail(e))
    ensures Deliver<T, U>(route, Fail(e), ThenPromiseNoArg(g, None)) == Settles(Fail(e))
  {
  }

  /** `Then(Func<T, IPromise<TResult>>, onError)`: the downstream promise
      follows the inner promise of whichever handler runs; a throwing
      `onError` rejects it. A throwing `onSuccess` is routed by the state
      machine: popped from the queue, its exception reaches the paired
      rejector (and so `onError`, or a plain rejection); replayed on an
      already-resolved promise, it escapes to the registering caller and the
      downstream promise stays pending. */
  lemma ThenPromiseMapsOutcome<T, U>(route: Route, upstream: Settlement<T>,
                                     onSuccess: T -> Completion<Eventual<U>>,
                                     onError: Option<Exn -> Completion<Eventual<U>>>)
    ensures upstream.Fulfil? && onSuccess(upstream.value).Returns? ==>
      Deliver(route, upstream, ThenPromise(onSuccess, onError)) == Relay(onSuccess(upstream.value).value)
    ensures upstream.Fulfil? && onSuccess(upstream.value).Throws? && route == Replayed ==>
      Deliver(route, upstream, ThenPromise(onSuccess, onError)) == Escapes(onSuccess(upstream.value).error)
    ensures upstream.Fulfil? && onSuccess(upstream.value).Throws? && route == Queued ==>
      Deliver(route, upstream, ThenPromise(onSuccess, onError)) ==
        Deliver(route, Fail(onSuccess(upstream.value).error), ThenPromise(onSuccess, onError))
    ensures upstream.Fail? && onError.Some? ==>
      Deliver(route, upstream, ThenPromise(onSuccess, onError)) ==
        (match onError.value(upstream.error)
         case Returns(inner) => Relay(inner)
         case Throws(x) => Settles(Fail(x)))
    ensures !Deliver(route, upstream, ThenPromise(onSuccess, onError)).Escapes? <==>
      route == Queued || upstream.Fail? || onSuccess(upstream.value).Returns?
  {
    match upstream
    case Fulfil(v) =>
      match onSuccess(v) {
        case Returns(inner) =>
          assert !Relay(inner).Escapes?;
        case Throws(x) =>
          if onError.Some? {
            assert !RelayCaught(onError.value(x)).Escapes?;
          }
      }
    case Fail(e) =>
      if onError.Some? {
        assert !RelayCaught(onError.value(e)).Escapes?;
      }
  }

  /** `Then(Func<IPromise<TResult>>, onError)` of `Promise<T>`: the downstream
      promise follows `onSuccess()`'s inner promise; a throwing `onSuccess` is
      routed by the state machine as in the overload above. Unlike that
      overload, the `onError` call has no catch, so its exception escapes and
      the downstream promise stays pending. */
  lemma ThenPromiseNoArgMapsOutcome<T, U>(route: Route, v: T, e: Exn,
                                          onSuccess: Completion<Eventual<U>>,
                                          onError: Option<Exn -> Completion<Eventual<U>>>,
                                          h: Exn -> Completion<Eventual<U>>)
    ensures onSuccess.Returns? ==>
      Deliver(route, Fulfil(v), ThenPromiseNoArg(onSuccess, onError)) == Relay(onSuccess.value)
    ensures onSuccess.Throws? && route == Replayed ==>
      Deliver(route, Fulfil(v), ThenPromiseNoArg(onSuccess, onError)) == Escapes(onSuccess.error)
    ensures onSuccess.Throws? && route == Queued ==>
      Deliver(route, Fulfil(v), ThenPromiseNoArg(onSuccess, onError)) ==
        Deliver<T, U>(route, Fail(onSuccess.error), ThenPromiseNoArg(onSuccess, onError))
    ensures onSuccess.Throws? && route == Queued && onError.None? ==>
      Deliver(route, Fulfil(v), ThenPromiseNoArg(onSuccess, onError)) == Settles(Fail(onSuccess.error))
    ensures h(e).Returns? ==>
      Deliver<T, U>(route, Fail(e), ThenPromiseNoArg(onSuccess, Some(h))) == Relay(h(e).value)
    ensures h(e).Throws? ==>
      Deliver<T, U>(route, Fail(e), ThenPromiseNoArg(onSuccess, Some(h))) == Escapes(h(e).error)
  {
  }

  /** The payload-less class's promise-returning `Then`: with no `onError` an
      upstream rejection is dropped, not forwarded, so the downstream promise
      stays pending. So is a throwing `onSuccess` reached from the queue: the
      catch hands its exception to the rejector, which drops it. Replayed on an
      already-resolved promise, the same exception escapes instead. */
  lemma UntypedThenPromiseDropsRejection<U>(route: Route, e: Exn,
                                            onSuccess: Completion<Eventual<U>>,
                                            onError: Option<Exn -> Completion<Eventual<U>>>)
    ensures onError.None? ==> Deliver(route, Fail(e), UntypedThenPromise(onSuccess, onError)) == NoEffect
    ensures onError.Some? ==>
      Deliver(route, Fail(e), UntypedThenPromise(onSuccess, onError)) == RelayUncaught(onError.value(e))
    ensures onSuccess.Returns? ==>
      Deliver(route, Fulfil(()), UntypedThenPromise(onSuccess, onError)) == Relay(onSuccess.value)
    ensures onSuccess.Throws? ==>
      Deliver(Replayed, Fulfil(()), UntypedThenPromise(onSuccess, onError)) == Escapes(onSuccess.error)
    ensures onSuccess.Throws? ==>
      Deliver(Queued, Fulfil(()), UntypedThenPromise(onSuccess, onError)) ==
        Deliver(Queued, Fail(onSuccess.error), UntypedThenPromise(onSuccess, onError))
    ensures onSuccess.Throws? && onError.None? ==>
      Deliver(Queued, Fulfil(()), UntypedThenPromise(onSuccess, onError)) == NoEffect
  {
  }

  // ---------------------------------------------------------------------
  // `Then` overloads whose downstream promise is never settled or only
  // settled on success.

  /** `Then(Action<T>, onError)` never settles the promise it returns. */
  lemma ThenActionNeverSettles<T>(route: Route, upstream: Settlement<T>,
                                  onSuccess: T -> Completion<()>, onError: Option<Exn -> Completion<()>>)
    ensures !Deliver(route, upstream, ThenAction(onSuccess, onError)).Settles?
    ensures upstream.Fulfil? && route == Replayed ==>
      Deliver(route, upstream, ThenAction(onSuccess, onError)) == ActionOnly(onSuccess(upstream.value))
  {
  }

  /** `Then(Action, onError)` of `Promise<T>` never settles the promise it
      returns. */
  lemma ThenActionNoArgNeverSettles<T>(route: Route, upstream: Settlement<T>,
                                       onSuccess: Completion<()>, onError: Option<Exn -> Completion<()>>)
    ensures !Deliver(route, upstream, ThenActionNoArg(onSuccess, onError)).Settles?
  {
  }

  /** `Then(Action, onError)` of the payload-less class never settles the
      promise it returns either. */
  lemma UntypedThenActionNeverSettles(route: Route, upstream: Settlement<()>,
                                      onSuccess: Completion<()>, onError: Option<Exn -> Completion<()>>)
    ensures !Deliver(route, upstream, ThenActionNoArg(onSuccess, onError)).Settles?
    ensures upstream.Fail? ==>
      Deliver(route, upstream, ThenActionNoArg(onSuccess, onError)) == OptionalAction(onError, upstream.error)
    ensures upstream.Fulfil? && route == Replayed ==>
      Deliver(route, upstream, ThenActionNoArg(onSuccess, onError)) == ActionOnly(onSuccess)
  {
  }

  /** `Then(Func<IPromise>, onError)` of `Promise<T>`: the downstream promise
      is settled only by relaying `onSuccess()`'s inner promise, never on
      rejection and never when `onSuccess` throws, on either route. */
  lemma ThenUntypedPromiseSettlesOnlyOnSuccess<T>(route: Route, upstream: Settlement<T>,
                                                  onSuccess: Completion<Eventual<()>>,
                                                  onError: Option<Exn -> Completion<()>>)
    ensures Deliver(route, upstream, ThenUntypedPromise(onSuccess, onError)).Settles? <==>
      upstream.Fulfil? && onSuccess.Returns? && onSuccess.value.SettlesWith?
    ensures upstream.Fulfil? && onSuccess.Returns? ==>
      Deliver(route, upstream, ThenUntypedPromise(onSuccess, onError)) == Relay(onSuccess.value)
  {
  }

  /** The same overload of the payload-less class behaves identically. */
  lemma UntypedThenUntypedPromiseSettlesOnlyOnSuccess(route: Route, upstream: Settlement<()>,
                                                      onSuccess: Completion<Eventual<()>>,
                                                      onError: Option<Exn -> Completion<()>>)
    ensures Deliver(route, upstream, ThenUntypedPromise(onSuccess, onError)).Settles? <==>
      upstream.Fulfil? && onSuccess.Returns? && onSuccess.value.SettlesWith?
    ensures upstream.Fulfil? && onSuccess.Returns? ==>
      Deliver(route, upstream, ThenUntypedPromise(onSuccess, onError)) == Relay(onSuccess.value)
  {
  }

  /** `Then<T>(Func<T>, onError)` of the payload-less class: the downstream
      promise resolves with the handler's value; it is never settled when the
      handler throws or the upstream promise rejects. */
  lemma UntypedThenValueMapsOutcome<U>(route: Route, upstream: Settlement<()>,
                                       onSuccess: Completion<U>, onError: Option<Exn -> Completion<()>>)
    ensures Deliver(route, upstream, UntypedThenValue(onSuccess, onError)).Settles? <==>
      upstream.Fulfil? && onSuccess.Returns?
    ensures upstream.Fulfil? && onSuccess.Returns? ==>
      Deliver(route, upstream, UntypedThenValue(onSuccess, onError)) == Settles(Fulfil(onSuccess.value))
  {
  }

  // ---------------------------------------------------------------------
  // Chains.

  /** In `a.Then(f).Then(g)` with no error handlers, a rejection of `a` reaches
      the end of the chain unchanged, whatever `f` and `g` would do, and on
      whichever route each link is reached. */
  lemma RejectionShortCircuits<T, U, V>(route1: Route, route2: Route, e: Exn,
                                        f: T -> Completion<Eventual<U>>,
                                        g: U -> Completion<Eventual<V>>)
    ensures
      var middle := Deliver(route1, Fail(e), ThenPromise(f, None));
      && middle == Settles(Fail(e))
      && Deliver(route2, middle.settlement, ThenPromise(g, None)) == Settles(Fail(e))
  {
  }

  /** `a.Then(f).Catch(h)` with `h` returning `r`: a rejection of `a` ends as
      a resolution with `r`. */
  lemma CatchRecoversChain<T, U>(route1: Route, route2: Route, e: Exn,
                                 f: T -> Completion<Eventual<U>>, h: Exn -> Completion<U>)
    requires h(e).Returns?
    ensures
      var middle := Deliver(route1, Fail(e), ThenPromise(f, None));
      && middle.Settles?
      && Deliver(route2, middle.settlement, CatchValue(h)) == Settles(Fulfil(h(e).value))
  {
  }
}
