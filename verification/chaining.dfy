/** The `Then` and `Catch` combinators of both promise classes.

    Each combinator creates a fresh downstream promise and registers one
    (resolver, rejector) pair on the upstream promise. What matters is what
    that pair does to the downstream promise when invoked; a `Continuation`
    records exactly that, as two pure functions from the argument to an
    `Effect`. User handlers are given by how they complete; a handler that
    returns a promise is given by how that inner promise eventually settles
    the relay registered on it.

    How the pair is reached matters too: a pair popped by `Resolve` has the
    resolver wrapped in a catch that hands the exception to the paired
    rejector, but a pair replayed by registration on an already-resolved
    promise has no such catch. `Deliver` composes the two. */
module Chaining {
  import opened Outcomes
  import P = PromiseState

  /** What one invocation of a continuation does to the downstream promise:
      nothing, one settlement call, or an exception that escapes it. */
  datatype Effect<+U> = NoEffect | Settles(settlement: Settlement<U>) | Escapes(error: Exn)

  /** How a promise returned by a handler settles the relay registered on it. */
  datatype Eventual<+U> = NeverSettles | SettlesWith(settlement: Settlement<U>)

  /** The pair a combinator registers, by what each half does downstream. */
  datatype Continuation<!T, U> = Continuation(onResolved: T -> Effect<U>, onRejected: Exn -> Effect<U>)

  /** How the pair is reached: popped from the queue by a settlement call, or
      replayed at once because the upstream promise was already settled. */
  datatype Route = Queued | Replayed

  /** The effect on the downstream promise of delivering the upstream outcome
      to the pair along the given route. */
  function Deliver<T, U>(route: Route, upstream: Settlement<T>, k: Continuation<T, U>): Effect<U>
  {
    match upstream
    case Fulfil(v) =>
      var first := k.onResolved(v);
      if route == Queued && first.Escapes? then k.onRejected(first.error) else first
    case Fail(e) => k.onRejected(e)
  }

  // ---------------------------------------------------------------------
  // Building blocks for the handler calls inside the combinators.

  /** `inner.Then(value => next.Resolve(value), error => next.Reject(error))`:
      the downstream promise receives whatever the inner promise settles to. */
  function Relay<U>(inner: Eventual<U>): Effect<U>
  {
    match inner
    case NeverSettles => NoEffect
    case SettlesWith(outcome) => Settles(outcome)
  }

  /** A call to a promise-returning handler, followed by the relay, with no
      catch around it. */
  function RelayUncaught<U>(c: Completion<Eventual<U>>): Effect<U>
  {
    match c
    case Returns(inner) => Relay(inner)
    case Throws(x) => Escapes(x)
  }

  /** The same inside `try { ... } catch (ex) { next.Reject(ex); }`. */
  function RelayCaught<U>(c: Completion<Eventual<U>>): Effect<U>
  {
    match c
    case Returns(inner) => Relay(inner)
    case Throws(x) => Settles(Fail(x))
  }

  /** A call to a handler that returns nothing and never touches the
      downstream promise. */
  function ActionOnly<U>(c: Completion<()>): Effect<U>
  {
    match c
    case Returns(_) => NoEffect
    case Throws(x) => Escapes(x)
  }

  /** `onError?.Invoke(error)` for an `Action<Exception>` handler. */
  function OptionalAction<U>(onError: Option<Exn -> Completion<()>>, e: Exn): Effect<U>
  {
    match onError
    case None => NoEffect
    case Some(h) => ActionOnly(h(e))
  }

  // ---------------------------------------------------------------------
  // The combinators of `Promise<T>`.

  /** `Then<TResult>(Func<T, IPromise<TResult>> onSuccess, Func<Exception, IPromise<TResult>> onError = null)`. */
  function ThenPromise<T, U>(onSuccess: T -> Completion<Eventual<U>>,
                             onError: Option<Exn -> Completion<Eventual<U>>>): Continuation<T, U>
  {
    Continuation(
      p => RelayUncaught(onSuccess(p)),
      e => match onError
           case None => Settles(Fail(e))
           case Some(h) => RelayCaught(h(e)))
  }

  /** `Then<TResult>(Func<IPromise<TResult>> onSuccess, Func<Exception, IPromise<TResult>> onError = null)`. */
  function ThenPromiseNoArg<T, U>(onSuccess: Completion<Eventual<U>>,
                                  onError: Option<Exn -> Completion<Eventual<U>>>): Continuation<T, U>
  {
    Continuation(
      p => RelayUncaught(onSuccess),
      e => match onError
           case None => Settles(Fail(e))
           case Some(h) => RelayUncaught(h(e)))
  }

  /** `Then(Action<T> onSuccess, Action<Exception> onError = null)`. */
  function ThenAction<T>(onSuccess: T -> Completion<()>,
                         onError: Option<Exn -> Completion<()>>): Continuation<T, ()>
  {
    Continuation(p => ActionOnly(onSuccess(p)), e => OptionalAction(onError, e))
  }

  /** `Then(Action onSuccess, Action<Exception> onError = null)`. */
  function ThenActionNoArg<T>(onSuccess: Completion<()>,
                              onError: Option<Exn -> Completion<()>>): Continuation<T, ()>
  {
    Continuation(p => ActionOnly(onSuccess), e => OptionalAction(onError, e))
  }

  /** `Then(Func<IPromise> onSuccess, Action<Exception> onError = null)`. */
  function ThenUntypedPromise<T>(onSuccess: Completion<Eventual<()>>,
                                 onError: Option<Exn -> Completion<()>>): Continuation<T, ()>
  {
    Continuation(p => RelayUncaught(onSuccess), e => OptionalAction(onError, e))
  }

  /** `Catch(Action<Exception> onError)`, the same in both classes. */
  function CatchAction<T>(onError: Exn -> Completion<()>): Continuation<T, ()>
  {
    Continuation(
      p => Settles(Fulfil(())),
      e => match onError(e)
           case Returns(_) => Settles(Fulfil(()))
           case Throws(x) => Settles(Fail(x)))
  }

  /** `Catch(Func<Exception, T> onError)`. */
  function CatchValue<T>(onError: Exn -> Completion<T>): Continuation<T, T>
  {
    Continuation(
      p => Settles(Fulfil(p)),
      e => match onError(e)
           case Returns(r) => Settles(Fulfil(r))
           case Throws(x) => Settles(Fail(x)))
  }

  // ---------------------------------------------------------------------
  // The combinators of the payload-less `Promise` that differ from the above.

  /** `Then<TResult>(Func<IPromise<TResult>> onSuccess, Func<Exception, IPromise<TResult>> onError = null)`
      of the payload-less class: the error path is `onError?.Invoke(error).Then(...)`
      alone. */
  function UntypedThenPromise<U>(onSuccess: Completion<Eventual<U>>,
                                 onError: Option<Exn -> Completion<Eventual<U>>>): Continuation<(), U>
  {
    Continuation(
      p => RelayUncaught(onSuccess),
      e => match onError
           case None => NoEffect
           case Some(h) => RelayUncaught(h(e)))
  }

  /** `Then<T>(Func<T> onSuccess, Action<Exception> onError = null)` of the
      payload-less class: `next.Resolve(onSuccess())` with no catch. */
  function UntypedThenValue<U>(onSuccess: Completion<U>,
                               onError: Option<Exn -> Completion<()>>): Continuation<(), U>
  {
    Continuation(
      p => match onSuccess
           case Returns(u) => Settles(Fulfil(u))
           case Throws(x) => Escapes(x),
      e => OptionalAction(onError, e))
  }
}
