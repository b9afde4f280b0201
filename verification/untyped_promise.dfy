/** The payload-less `Promise` (Promise.cs, lines 282-440): the same state
    machine as `Promise<T>` with the payload elided. Its resolvers take no
    argument, which is the generic machine at `T = ()`; it has no executor
    constructor. */
module UntypedPromise {
  import opened Outcomes
  import P = PromiseState

  type UState = P.State<()>

  /** The saved exception, while the promise is rejected. */
  ghost predicate RejectedWith(s: UState, e: Exn)
  {
    s.status == P.Rejected && s.savedError == Some(e)
  }

  /** `Resolve()`: no already-settled guard; then the oldest queued resolver,
      if any, runs with no argument, and its paired rejector receives what it
      throws. */
  function Resolve(s: UState, oracle: P.Oracle<()>): (r: P.Step<()>)
    ensures r.state.status == P.Resolved
    ensures r.state.savedError == s.savedError
    ensures s.resolvers == [] ==> r.trace == [] && r.escaped == None
    ensures P.Paired(s) ==> P.PoppedOldest(s, r.state) && P.Paired(r.state)
    ensures P.Paired(s) && s.resolvers != [] ==>
      && |r.trace| > 0
      && r.trace[0] == P.InvokeResolver(s.resolvers[0], ())
      && (oracle(r.trace[0]).Returns? ==> r.trace == [r.trace[0]] && r.escaped == None)
      && (oracle(r.trace[0]).Throws? ==>
            && r.trace == [r.trace[0], P.InvokeRejector(s.rejectors[0], oracle(r.trace[0]).error)]
            && r.escaped == EscapeOf(oracle(r.trace[1])))
  {
    P.Resolve(s, (), oracle)
  }

  /** `Reject(e)`: no already-settled guard; then the oldest queued rejector,
      if any, runs with `e`, uncaught. */
  function Reject(s: UState, e: Exn, oracle: P.Oracle<()>): (r: P.Step<()>)
    ensures RejectedWith(r.state, e)
    ensures s.rejectors == [] ==> r.trace == [] && r.escaped == None
    ensures P.Paired(s) ==> P.PoppedOldest(s, r.state) && P.Paired(r.state)
    ensures P.Paired(s) && s.rejectors != [] ==>
      && r.trace == [P.InvokeRejector(s.rejectors[0], e)]
      && r.escaped == EscapeOf(oracle(r.trace[0]))
  {
    P.Reject(s, e, oracle)
  }

  /** The untyped class keeps no saved value; the generic machine's saved
      field is pinned to `()` so that its resolver calls carry no payload. */
  function NoPayload(s: UState): UState
  {
    s.(saved := Some(()))
  }

  /** `InvokePendingResolver()`: pops one pair at index 0 of both lists and
      calls its resolver with no argument; if the resolver throws, the paired
      rejector receives that exception, and what the rejector throws escapes. */
  function InvokePendingResolver(s: UState, oracle: P.Oracle<()>): (r: P.Step<()>)
    ensures r.state.status == s.status && r.state.savedError == s.savedError
    ensures s.resolvers == [] ==>
      && r.trace == [] && r.escaped == None
      && r.state.resolvers == s.resolvers && r.state.rejectors == s.rejectors
    ensures P.Paired(s) ==> P.PoppedOldest(s, r.state) && P.Paired(r.state)
    ensures P.Paired(s) && s.resolvers != [] ==>
      && |r.trace| > 0
      && r.trace[0] == P.InvokeResolver(s.resolvers[0], ())
      && (oracle(r.trace[0]).Returns? ==> r.trace == [r.trace[0]] && r.escaped == None)
      && (oracle(r.trace[0]).Throws? ==>
            && r.trace == [r.trace[0], P.InvokeRejector(s.rejectors[0], oracle(r.trace[0]).error)]
            && r.escaped == EscapeOf(oracle(r.trace[1])))
    ensures s.resolvers != [] && s.rejectors == [] ==>
      r.trace == [] && r.escaped == Some(ArgumentOutOfRange)
  {
    P.InvokePendingResolver(NoPayload(s), oracle)
  }

  /** `InvokePendingRejector()`: pops one pair at index 0 of both lists and
      passes the saved exception to its rejector, uncaught. */
  function InvokePendingRejector(s: UState, oracle: P.Oracle<()>): (r: P.Step<()>)
    requires s.rejectors != [] && s.resolvers != [] ==> s.savedError.Some?
    ensures P.SameOutcome(s, r.state)
    ensures s.rejectors == [] ==> r.state == s && r.trace == [] && r.escaped == None
    ensures P.Paired(s) ==> P.PoppedOldest(s, r.state) && P.Paired(r.state)
    ensures P.Paired(s) && s.rejectors != [] ==>
      && r.trace == [P.InvokeRejector(s.rejectors[0], s.savedError.value)]
      && r.escaped == EscapeOf(oracle(r.trace[0]))
    ensures s.rejectors != [] && s.resolvers == [] ==>
      r.trace == [] && r.escaped == Some(ArgumentOutOfRange)
  {
    P.InvokePendingRejector(s, oracle)
  }

  /** `InvokeResolverRejected(resolver, rejector)`: queue while pending,
      replay against the saved outcome once settled. */
  function Register(s: UState, resolver: P.CallbackId, rejector: P.CallbackId, oracle: P.Oracle<()>): (r: P.Step<()>)
    requires s.status == P.Rejected ==> s.savedError.Some?
    ensures r.state.status == s.status && r.state.savedError == s.savedError
    ensures s.status == P.Pending ==>
      && r.trace == [] && r.escaped == None
      && r.state.resolvers == s.resolvers + [resolver]
      && r.state.rejectors == s.rejectors + [rejector]
    ensures s.status != P.Pending ==>
      r.state.resolvers == s.resolvers && r.state.rejectors == s.rejectors
    ensures s.status == P.Resolved ==>
      r.trace == [P.InvokeResolver(resolver, ())] && r.escaped == EscapeOf(oracle(r.trace[0]))
    ensures s.status == P.Rejected ==>
      && r.trace == [P.InvokeRejector(rejector, s.savedError.value)]
      && r.escaped == EscapeOf(oracle(r.trace[0]))
  {
    P.Register(NoPayload(s), resolver, rejector, oracle)
  }
}
