/** The settlement state machine of `Promise<T>` (Promise.cs, lines 5-280).

    A promise holds a status, the saved value and saved exception, and two
    parallel FIFO lists of callbacks registered while it was pending. The
    callbacks themselves are user delegates; here each is an opaque id, and an
    `Oracle` says how invoking it with a given argument completes. Every
    operation is a pure step that returns the new state, the invocations it
    made in order, and the exception (if any) that escapes to its caller.

    The payload-less `Promise` class runs the same algorithm with no payload;
    module UntypedPromise instantiates this one with `T = ()`. */
module PromiseState {
  import opened Outcomes

  datatype Status = Pending | Resolved | Rejected

  /** The identity of one registered delegate. */
  type CallbackId = nat

  /** One promise instance. `saved` and `savedError` are the two saved fields;
      `None` stands for a field that still holds its default. A list that is
      still `null` is modelled as the empty sequence: the two lists are created
      together, and every guard treats `null` and empty alike. */
  datatype State<T> = State(
    status: Status,
    saved: Option<T>,
    savedError: Option<Exn>,
    resolvers: seq<CallbackId>,
    rejectors: seq<CallbackId>)

  /** One call into a registered delegate, with its argument. */
  datatype Invocation<T> =
    | InvokeResolver(resolver: CallbackId, value: T)
    | InvokeRejector(rejector: CallbackId, error: Exn)

  /** How each invocation of a delegate completes: it returns, or throws. */
  type Oracle<!T> = Invocation<T> -> Completion<()>

  /** The result of one public call: the state afterwards, the delegates it
      invoked in order, and the exception that escaped the call, if any. */
  datatype Step<T> = Step(state: State<T>, trace: seq<Invocation<T>>, escaped: Option<Exn>)

  /** Every append and every removal touches both lists. */
  predicate Paired<T>(s: State<T>)
  {
    |s.resolvers| == |s.rejectors|
  }

  /** A settled status always has the matching saved field set. */
  predicate Consistent<T>(s: State<T>)
  {
    && (s.status == Resolved ==> s.saved.Some?)
    && (s.status == Rejected ==> s.savedError.Some?)
  }

  /** The invariant of every state a sequence of public calls can reach. */
  predicate Valid<T>(s: State<T>)
  {
    Paired(s) && Consistent(s)
  }

  /** The queues after one settlement call: when a pair was waiting, the
      oldest pair (index 0 of both lists) is gone and the rest keep their
      order; when none was, both lists are untouched. */
  ghost predicate PoppedOldest<T>(before: State<T>, after: State<T>)
    requires Paired(before)
  {
    if before.resolvers == [] then
      after.resolvers == before.resolvers && after.rejectors == before.rejectors
    else
      && after.resolvers == before.resolvers[1..]
      && after.rejectors == before.rejectors[1..]
  }

  /** Status and saved fields agree between two states. */
  ghost predicate SameOutcome<T>(a: State<T>, b: State<T>)
  {
    a.status == b.status && a.saved == b.saved && a.savedError == b.savedError
  }

  /** The parameterless constructor: a pending promise with no callbacks. */
  function Fresh<T>(): (s: State<T>)
    ensures s.status == Pending
    ensures s.resolvers == [] && s.rejectors == []
    ensures Valid(s)
  {
    State(Pending, None, None, [], [])
  }

  /** Pops the oldest pair and calls its resolver with the saved value; if the
      resolver throws, the paired rejector receives that exception, and what
      the rejector throws escapes. */
  function InvokePendingResolver<T>(s: State<T>, oracle: Oracle<T>): (r: Step<T>)
    requires s.resolvers != [] && s.rejectors != [] ==> s.saved.Some?
    ensures SameOutcome(s, r.state)
    ensures s.resolvers == [] ==> r.state == s && r.trace == [] && r.escaped == None
    ensures Paired(s) ==> PoppedOldest(s, r.state) && Paired(r.state)
    ensures Paired(s) && s.resolvers != [] ==>
      && |r.trace| > 0
      && r.trace[0] == InvokeResolver(s.resolvers[0], s.saved.value)
      && (oracle(r.trace[0]).Returns? ==> r.trace == [r.trace[0]] && r.escaped == None)
      && (oracle(r.trace[0]).Throws? ==>
            && r.trace == [r.trace[0], InvokeRejector(s.rejectors[0], oracle(r.trace[0]).error)]
            && r.escaped == EscapeOf(oracle(r.trace[1])))
    ensures s.resolvers != [] && s.rejectors == [] ==>
      r.trace == [] && r.escaped == Some(ArgumentOutOfRange)
  {
    if s.resolvers == [] then
      Step(s, [], None)
    else
      var resolver := s.resolvers[0];
      var afterResolver := s.(resolvers := s.resolvers[1..]);
      if afterResolver.rejectors == [] then
        // `m_rejectors[0]` on an empty list throws before anything is invoked
        Step(afterResolver, [], Some(ArgumentOutOfRange))
      else
        var rejector := afterResolver.rejectors[0];
        var popped := afterResolver.(rejectors := afterResolver.rejectors[1..]);
        var call := InvokeResolver(resolver, s.saved.value);
        match oracle(call)
        case Returns(_) => Step(popped, [call], None)
        case Throws(x) =>
          var fallback := InvokeRejector(rejector, x);
          Step(popped, [call, fallback], EscapeOf(oracle(fallback)))
  }

  /** Pops the oldest pair and calls its rejector with the saved exception;
      nothing catches what the rejector throws. */
  function InvokePendingRejector<T>(s: State<T>, oracle: Oracle<T>): (r: Step<T>)
    requires s.rejectors != [] && s.resolvers != [] ==> s.savedError.Some?
    ensures SameOutcome(s, r.state)
    ensures s.rejectors == [] ==> r.state == s && r.trace == [] && r.escaped == None
    ensures Paired(s) ==> PoppedOldest(s, r.state) && Paired(r.state)
    ensures Paired(s) && s.rejectors != [] ==>
      && r.trace == [InvokeRejector(s.rejectors[0], s.savedError.value)]
      && r.escaped == EscapeOf(oracle(r.trace[0]))
    ensures s.rejectors != [] && s.resolvers == [] ==>
      r.trace == [] && r.escaped == Some(ArgumentOutOfRange)
  {
    if s.rejectors == [] then
      Step(s, [], None)
    else
      var rejector := s.rejectors[0];
      var afterRejector := s.(rejectors := s.rejectors[1..]);
      if afterRejector.resolvers == [] then
        // `m_resolvers.RemoveAt(0)` on an empty list throws
        Step(afterRejector, [], Some(ArgumentOutOfRange))
      else
        var popped := afterRejector.(resolvers := afterRejector.resolvers[1..]);
        var call := InvokeRejector(rejector, s.savedError.value);
        Step(popped, [call], EscapeOf(oracle(call)))
  }

  /** `Resolve(v)`: there is no already-settled guard, so whatever the prior
      status the promise ends resolved with `v`; then at most one queued pair
      is popped and run. */
  function Resolve<T>(s: State<T>, v: T, oracle: Oracle<T>): (r: Step<T>)
    ensures r.state.status == Resolved && r.state.saved == Some(v)
    ensures r.state.savedError == s.savedError
    ensures s.resolvers == [] ==> r.state.resolvers == [] && r.state.rejectors == s.rejectors
    ensures s.resolvers == [] ==> r.trace == [] && r.escaped == None
    ensures Paired(s) ==> PoppedOldest(s, r.state) && Paired(r.state)
    ensures Paired(s) && s.resolvers != [] ==>
      && |r.trace| > 0
      && r.trace[0] == InvokeResolver(s.resolvers[0], v)
      && (oracle(r.trace[0]).Returns? ==> r.trace == [r.trace[0]] && r.escaped == None)
      && (oracle(r.trace[0]).Throws? ==>
            && r.trace == [r.trace[0], InvokeRejector(s.rejectors[0], oracle(r.trace[0]).error)]
            && r.escaped == EscapeOf(oracle(r.trace[1])))
  {
    InvokePendingResolver(s.(status := Resolved, saved := Some(v)), oracle)
  }

  /** `Reject(e)`: no already-settled guard either; the promise ends rejected
      with `e`, then at most one queued pair is popped and its rejector run. */
  function Reject<T>(s: State<T>, e: Exn, oracle: Oracle<T>): (r: Step<T>)
    ensures r.state.status == Rejected && r.state.savedError == Some(e)
    ensures r.state.saved == s.saved
    ensures s.rejectors == [] ==> r.state.rejectors == [] && r.state.resolvers == s.resolvers
    ensures s.rejectors == [] ==> r.trace == [] && r.escaped == None
    ensures Paired(s) ==> PoppedOldest(s, r.state) && Paired(r.state)
    ensures Paired(s) && s.rejectors != [] ==>
      && r.trace == [InvokeRejector(s.rejectors[0], e)]
      && r.escaped == EscapeOf(oracle(r.trace[0]))
  {
    InvokePendingRejector(s.(status := Rejected, savedError := Some(e)), oracle)
  }

  /** `InvokeResolverRejected(resolver, rejector)`: while pending the pair is
      appended to the queues; once settled it is replayed at once against the
      saved outcome, with no catch around the call and no change to the state. */
  function Register<T>(s: State<T>, resolver: CallbackId, rejector: CallbackId, oracle: Oracle<T>): (r: Step<T>)
    requires Consistent(s)
    ensures s.status == Pending ==>
      && SameOutcome(s, r.state)
      && r.state.resolvers == s.resolvers + [resolver]
      && r.state.rejectors == s.rejectors + [rejector]
      && r.trace == [] && r.escaped == None
    ensures s.status == Resolved ==>
      && r.state == s
      && r.trace == [InvokeResolver(resolver, s.saved.value)]
      && r.escaped == EscapeOf(oracle(r.trace[0]))
    ensures s.status == Rejected ==>
      && r.state == s
      && r.trace == [InvokeRejector(rejector, s.savedError.value)]
      && r.escaped == EscapeOf(oracle(r.trace[0]))
  {
    match s.status
    case Pending =>
      Step(s.(resolvers := s.resolvers + [resolver], rejectors := s.rejectors + [rejector]), [], None)
    case Resolved =>
      var call := InvokeResolver(resolver, s.saved.value);
      Step(s, [call], EscapeOf(oracle(call)))
    case Rejected =>
      var call := InvokeRejector(rejector, s.savedError.value);
      Step(s, [call], EscapeOf(oracle(call)))
  }
}
