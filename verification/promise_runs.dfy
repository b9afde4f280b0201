/** Sequences of public calls on one `Promise<T>`, the executor constructor
    built on them, and the properties that hold across calls: the queues stay
    paired, queued pairs are served oldest first, one per settlement call. */
module PromiseRuns {
  import opened Outcomes
  import opened PromiseState

  /** A settlement call: `Resolve(v)` or `Reject(e)`. */
  datatype SettleCall<T> = ResolveWith(value: T) | RejectWith(error: Exn)

  /** A public call made on the promise by a single sequential caller. */
  datatype Op<T> =
    | RegisterPair(resolver: CallbackId, rejector: CallbackId)
    | Settle(call: SettleCall<T>)

  /** The results of a sequence of calls: the final state, every invocation
      in order, and the exceptions that escaped the calls, in order. A caller
      that sees an exception may still make the next call. */
  datatype Session<T> = Session(state: State<T>, trace: seq<Invocation<T>>, escapes: seq<Exn>)

  /** An executor: the settlement calls it makes on the `resolve`/`reject`
      delegates it is given, and how it then completes. */
  datatype Executor<T> = Executor(calls: seq<SettleCall<T>>, ending: Completion<()>)

  function ToSeq(e: Option<Exn>): seq<Exn>
  {
    match e
    case None => []
    case Some(x) => [x]
  }

  function Apply<T>(s: State<T>, op: Op<T>, oracle: Oracle<T>): (r: Step<T>)
    requires Consistent(s)
    ensures Consistent(r.state)
  {
    match op
    case RegisterPair(a, b) => Register(s, a, b, oracle)
    case Settle(ResolveWith(v)) => Resolve(s, v, oracle)
    case Settle(RejectWith(e)) => Reject(s, e, oracle)
  }

  /** Runs the calls in order; reachable states stay consistent. */
  function Run<T>(s: State<T>, ops: seq<Op<T>>, oracle: Oracle<T>): (r: Session<T>)
    requires Consistent(s)
    ensures Consistent(r.state)
    decreases |ops|
  {
    if ops == [] then Session(s, [], [])
    else
      var step := Apply(s, ops[0], oracle);
      var rest := Run(step.state, ops[1..], oracle);
      Session(rest.state, step.trace + rest.trace, ToSeq(step.escaped) + rest.escapes)
  }

  /** The calls are all settlement calls. */
  ghost predicate SettlesOnly<T>(ops: seq<Op<T>>)
  {
    forall i | 0 <= i < |ops| :: ops[i].Settle?
  }

  /** The calls are all registrations. */
  ghost predicate RegistersOnly<T>(ops: seq<Op<T>>)
  {
    forall i | 0 <= i < |ops| :: ops[i].RegisterPair?
  }

  /** No delegate ever throws. */
  ghost predicate NeverThrows<T(!new)>(oracle: Oracle<T>)
  {
    forall inv: Invocation<T> :: oracle(inv).Returns?
  }

  /** The status and saved field a settlement call leaves behind. */
  ghost predicate SettledBy<T>(s: State<T>, call: SettleCall<T>)
  {
    match call
    case ResolveWith(v) => s.status == Resolved && s.saved == Some(v)
    case RejectWith(e) => s.status == Rejected && s.savedError == Some(e)
  }

  /** The invocation the settlement call makes when the pair
      `(resolver, rejector)` is the oldest one queued. */
  function Served<T>(call: SettleCall<T>, resolver: CallbackId, rejector: CallbackId): Invocation<T>
  {
    match call
    case ResolveWith(v) => InvokeResolver(resolver, v)
    case RejectWith(e) => InvokeRejector(rejector, e)
  }

  function Min(a: nat, b: nat): nat
  {
    if a <= b then a else b
  }

  /** `m_resolvers` and `m_rejectors` always have equal length: whatever calls
      are made, and whatever the delegates do, every append and every removal
      is paired. In particular the `RemoveAt(0)` on the partner list never
      meets an empty list. */
  lemma {:induction false} RunKeepsValid<T>(s: State<T>, ops: seq<Op<T>>, oracle: Oracle<T>)
    requires Valid(s)
    ensures Valid(Run(s, ops, oracle).state)
    ensures ArgumentOutOfRange in Run(s, ops, oracle).escapes ==>
      exists inv :: inv in Run(s, ops, oracle).trace && oracle(inv) == Throws(ArgumentOutOfRange)
    decreases |ops|
  {
    if ops != [] {
      var step := Apply(s, ops[0], oracle);
      assert Valid(step.state);
      RunKeepsValid(step.state, ops[1..], oracle);
      var r := Run(s, ops, oracle);
      var rest := Run(step.state, ops[1..], oracle);
      assert r.trace == step.trace + rest.trace;
      if ArgumentOutOfRange in ToSeq(step.escaped) {
        assert step.trace != [];
        var inv := step.trace[|step.trace| - 1];
        assert oracle(inv) == Throws(ArgumentOutOfRange);
        assert inv in r.trace;
      } else if ArgumentOutOfRange in rest.escapes {
        var inv :| inv in rest.trace && oracle(inv) == Throws(ArgumentOutOfRange);
        assert inv in r.trace;
      }
    }
  }

  /** Settlement calls serve the queued pairs strictly in registration order,
      one pair per call: the i-th call invokes the i-th pair (its resolver for
      `Resolve`, its rejector for `Reject`), and calls made after the queue is
      empty invoke nothing. The pairs not yet served stay queued, in order. */
  lemma {:induction false} SettlementsServeInOrder<T(!new)>(s: State<T>, ops: seq<Op<T>>, oracle: Oracle<T>)
    requires Valid(s) && SettlesOnly(ops) && NeverThrows(oracle)
    ensures
      var r := Run(s, ops, oracle);
      var n := Min(|ops|, |s.resolvers|);
      && r.escapes == []
      && |r.trace| == n
      && (forall i | 0 <= i < n :: r.trace[i] == Served(ops[i].call, s.resolvers[i], s.rejectors[i]))
      && r.state.resolvers == s.resolvers[n..]
      && r.state.rejectors == s.rejectors[n..]
    decreases |ops|
  {
    if ops != [] {
      var step := Apply(s, ops[0], oracle);
      QuietSettlement(s, ops[0].call, oracle);
      assert SettlesOnly(ops[1..]) by {
        forall i | 0 <= i < |ops[1..]| ensures ops[1..][i].Settle? {
          assert ops[1..][i] == ops[i + 1];
        }
      }
      SettlementsServeInOrder(step.state, ops[1..], oracle);
      RunFirst(s, ops, oracle);
      var rest := Run(step.state, ops[1..], oracle);
      var r := Run(s, ops, oracle);
      if s.resolvers != [] {
        ServedCons(ops, s.resolvers, s.rejectors, step.trace[0], rest.trace);
        assert step.state.resolvers == s.resolvers[1..];
        assert step.state.rejectors == s.rejectors[1..];
      }
    }
  }

  /** Index bookkeeping for `SettlementsServeInOrder`: serving the first pair
      and then the rest in order serves them all in order. */
  lemma ServedCons<T>(ops: seq<Op<T>>, resolvers: seq<CallbackId>, rejectors: seq<CallbackId>,
                      head: Invocation<T>, tail: seq<Invocation<T>>)
    requires SettlesOnly(ops) && ops != [] && resolvers != [] && |resolvers| == |rejectors|
    requires head == Served(ops[0].call, resolvers[0], rejectors[0])
    requires |tail| == Min(|ops| - 1, |resolvers| - 1)
    requires forall i | 0 <= i < |tail| :: tail[i] == Served(ops[1..][i].call, resolvers[1..][i], rejectors[1..][i])
    ensures |[head] + tail| == Min(|ops|, |resolvers|)
    ensures forall i | 0 <= i < |tail| + 1 :: ([head] + tail)[i] == Served(ops[i].call, resolvers[i], rejectors[i])
    ensures resolvers[1..][Min(|ops| - 1, |resolvers| - 1)..] == resolvers[Min(|ops|, |resolvers|)..]
    ensures rejectors[1..][Min(|ops| - 1, |rejectors| - 1)..] == rejectors[Min(|ops|, |rejectors|)..]
  {
    forall i | 0 <= i < |tail| + 1
      ensures ([head] + tail)[i] == Served(ops[i].call, resolvers[i], rejectors[i])
    {
      if i > 0 {
        assert ([head] + tail)[i] == tail[i - 1];
        assert ops[1..][i - 1] == ops[i];
      }
    }
  }

  /** `Run` takes the calls one at a time. */
  lemma RunFirst<T>(s: State<T>, ops: seq<Op<T>>, oracle: Oracle<T>)
    requires Consistent(s) && ops != []
    ensures
      var step := Apply(s, ops[0], oracle);
      var rest := Run(step.state, ops[1..], oracle);
      Run(s, ops, oracle) == Session(rest.state, step.trace + rest.trace, ToSeq(step.escaped) + rest.escapes)
  {
  }

  /** One settlement call when no delegate throws: it serves the oldest pair,
      if any, and nothing escapes. */
  lemma QuietSettlement<T(!new)>(s: State<T>, call: SettleCall<T>, oracle: Oracle<T>)
    requires Valid(s) && NeverThrows(oracle)
    ensures
      var step := Apply(s, Settle(call), oracle);
      && Valid(step.state)
      && step.escaped == None
      && step.trace == (if s.resolvers == [] then [] else [Served(call, s.resolvers[0], s.rejectors[0])])
      && PoppedOldest(s, step.state)
  {
    if s.resolvers != [] {
      match call
      case ResolveWith(v) =>
        assert oracle(InvokeResolver(s.resolvers[0], v)).Returns?;
      case RejectWith(e) =>
        assert oracle(InvokeRejector(s.rejectors[0], e)).Returns?;
    }
  }

  /** The resolvers, and the rejectors, that a sequence of calls registers,
      in call order. */
  function RegisteredResolvers<T>(ops: seq<Op<T>>): seq<CallbackId>
  {
    if ops == [] then []
    else (if ops[0].RegisterPair? then [ops[0].resolver] else []) + RegisteredResolvers(ops[1..])
  }

  function RegisteredRejectors<T>(ops: seq<Op<T>>): seq<CallbackId>
  {
    if ops == [] then []
    else (if ops[0].RegisterPair? then [ops[0].rejector] else []) + RegisteredRejectors(ops[1..])
  }

  /** Registrations on a pending promise invoke nothing and append their pairs
      to the end of both queues in call order; earlier entries keep their
      place. */
  lemma {:induction false} RegistrationsQueueInOrder<T>(s: State<T>, ops: seq<Op<T>>, oracle: Oracle<T>)
    requires Consistent(s) && s.status == Pending && RegistersOnly(ops)
    ensures
      var r := Run(s, ops, oracle);
      && r.trace == [] && r.escapes == []
      && SameOutcome(s, r.state)
      && r.state.resolvers == s.resolvers + RegisteredResolvers(ops)
      && r.state.rejectors == s.rejectors + RegisteredRejectors(ops)
    decreases |ops|
  {
    if ops != [] {
      var step := Apply(s, ops[0], oracle);
      QueueOne(s, ops[0], oracle);
      assert RegistersOnly(ops[1..]) by {
        forall i | 0 <= i < |ops[1..]| ensures ops[1..][i].RegisterPair? {
          assert ops[1..][i] == ops[i + 1];
        }
      }
      RegistrationsQueueInOrder(step.state, ops[1..], oracle);
      RunFirst(s, ops, oracle);
      assert RegisteredResolvers(ops) == [ops[0].resolver] + RegisteredResolvers(ops[1..]);
      assert RegisteredRejectors(ops) == [ops[0].rejector] + RegisteredRejectors(ops[1..]);
      AppendAssociates(s.resolvers, [ops[0].resolver], RegisteredResolvers(ops[1..]));
      AppendAssociates(s.rejectors, [ops[0].rejector], RegisteredRejectors(ops[1..]));
    }
  }

  lemma AppendAssociates(a: seq<CallbackId>, b: seq<CallbackId>, c: seq<CallbackId>)
    ensures a + b + c == a + (b + c)
  {
  }

  /** One registration on a pending promise. */
  lemma QueueOne<T>(s: State<T>, op: Op<T>, oracle: Oracle<T>)
    requires Consistent(s) && s.status == Pending && op.RegisterPair?
    ensures
      var step := Apply(s, op, oracle);
      && step.trace == [] && step.escaped == None
      && SameOutcome(s, step.state)
      && step.state.resolvers == s.resolvers + [op.resolver]
      && step.state.rejectors == s.rejectors + [op.rejector]
  {
  }

  /** With nothing queued, settlement calls invoke nothing and let nothing
      escape; the last call decides status and saved field. */
  lemma {:induction false} SettlingWithEmptyQueues<T>(s: State<T>, ops: seq<Op<T>>, oracle: Oracle<T>)
    requires Consistent(s) && s.resolvers == [] && s.rejectors == [] && SettlesOnly(ops)
    ensures
      var r := Run(s, ops, oracle);
      && r.trace == [] && r.escapes == []
      && r.state.resolvers == [] && r.state.rejectors == []
      && (ops == [] ==> r.state == s)
      && (ops != [] ==> SettledBy(r.state, ops[|ops| - 1].call))
    decreases |ops|
  {
    if ops != [] {
      var step := Apply(s, ops[0], oracle);
      assert SettlesOnly(ops[1..]) by {
        forall i | 0 <= i < |ops[1..]| ensures ops[1..][i].Settle? {
          assert ops[1..][i] == ops[i + 1];
        }
      }
      SettlingWithEmptyQueues(step.state, ops[1..], oracle);
      if |ops| > 1 {
        assert ops[1..][|ops[1..]| - 1] == ops[|ops| - 1];
      }
    }
  }

  /** The settlement calls an executor makes, as calls on the promise. */
  function AsOps<T>(calls: seq<SettleCall<T>>): (ops: seq<Op<T>>)
    ensures |ops| == |calls|
    ensures forall i | 0 <= i < |calls| :: ops[i] == Settle(calls[i])
  {
    seq(|calls|, i requires 0 <= i < |calls| => Settle(calls[i]))
  }

  /** A delegate that always returns; used where no delegate can be invoked. */
  function Quiet<T>(inv: Invocation<T>): Completion<()>
  {
    Returns(())
  }

  /** The executor constructor: the promise starts pending, the executor runs
      at once with `Resolve` and `Reject`, and an exception it throws is caught
      and passed to `Reject`. Nothing is queued during construction, so no
      delegate is invoked and nothing escapes. */
  function Construct<T>(executor: Executor<T>): (s: State<T>)
    ensures Valid(s)
    ensures s.resolvers == [] && s.rejectors == []
    ensures executor.ending.Throws? ==>
      s.status == Rejected && s.savedError == Some(executor.ending.error)
    ensures executor.ending.Returns? && executor.calls == [] ==> s.status == Pending
    ensures executor.ending.Returns? && executor.calls != [] ==>
      SettledBy(s, executor.calls[|executor.calls| - 1])
  {
    var ops := AsOps(executor.calls);
    SettlingWithEmptyQueues(Fresh(), ops, Quiet);
    var run := Run(Fresh(), ops, Quiet);
    match executor.ending
    case Returns(_) => run.state
    case Throws(x) => Reject(run.state, x, Quiet).state
  }

  /** The executor's calls are its only effect: from the fresh promise they
      invoke no delegate and let no exception escape, whatever the delegates
      would do. */
  lemma ConstructionIsSilent<T>(executor: Executor<T>, oracle: Oracle<T>)
    ensures
      var r := Run(Fresh(), AsOps(executor.calls), oracle);
      && r.trace == [] && r.escapes == []
      && (executor.ending.Returns? ==> r.state == Construct(executor))
  {
    SettlingWithEmptyQueues(Fresh(), AsOps(executor.calls), oracle);
    SettlingWithEmptyQueues(Fresh(), AsOps(executor.calls), Quiet);
    SettledStatesAgree(Fresh(), AsOps(executor.calls), oracle, Quiet);
  }

  /** With nothing queued, the state a run reaches does not depend on the
      delegates. */
  lemma {:induction false} SettledStatesAgree<T>(s: State<T>, ops: seq<Op<T>>, o1: Oracle<T>, o2: Oracle<T>)
    requires Consistent(s) && s.resolvers == [] && s.rejectors == [] && SettlesOnly(ops)
    ensures Run(s, ops, o1).state == Run(s, ops, o2).state
    decreases |ops|
  {
    if ops != [] {
      assert SettlesOnly(ops[1..]) by {
        forall i | 0 <= i < |ops[1..]| ensures ops[1..][i].Settle? {
          assert ops[1..][i] == ops[i + 1];
        }
      }
      assert Apply(s, ops[0], o1).state == Apply(s, ops[0], o2).state;
      SettledStatesAgree(Apply(s, ops[0], o1).state, ops[1..], o1, o2);
    }
  }
  /** No already-settled guard and one pair per settlement call, on a small
      run: with pairs 1 and 2 queued, `Resolve(v)` serves pair 1 only; pair 3,
      registered next, is replayed at once while pair 2 still waits; a later
      `Reject(e)` overrides the resolution and serves pair 2's rejector. */
  lemma OnePairPerSettlement<T>(v: T, e: Exn)
    ensures
      var queued := Run(Fresh(), [RegisterPair(1, 11), RegisterPair(2, 12)], Quiet);
      var resolved := Resolve(queued.state, v, Quiet);
      var late := Register(resolved.state, 3, 13, Quiet);
      var rejected := Reject(late.state, e, Quiet);
      && resolved.trace == [InvokeResolver(1, v)]
      && resolved.state.resolvers == [2] && resolved.state.rejectors == [12]
      && late.trace == [InvokeResolver(3, v)]
      && late.state.resolvers == [2]
      && rejected.trace == [InvokeRejector(12, e)]
      && rejected.state.status == Rejected
      && rejected.state.resolvers == [] && rejected.state.rejectors == []
  {
    var ops: seq<Op<T>> := [RegisterPair(1, 11), RegisterPair(2, 12)];
    RegistrationsQueueInOrder(Fresh(), ops, Quiet);
    var queued := Run(Fresh(), ops, Quiet);
    assert RegisteredResolvers(ops) == [1, 2];
    assert RegisteredRejectors(ops) == [11, 12];
    assert queued.state.resolvers == [1, 2];
    assert queued.state.rejectors == [11, 12];
  }
}
