/** The per-thread deduplication state as a value, and what the wrapped operations do to it:
    `start_que_unique_handled_transaction`, `end_que_unique_handled_transaction` and the
    `transaction` wrapper (lib/que/unique/transaction_class_methods.rb), and
    `enqueue_before_unique` (lib/que/unique.rb). The class in unique_state.dfy is specified by
    these functions; the lemmas here are what the deduplication promises. */
module Transactions {
  import opened Values
  import opened Canonical

  datatype Option<T> = None | Some(value: T)

  /** One call of the original Que `enqueue`, with the arguments it received. */
  datatype Call = Call(jobClass: string, args: seq<Value>)

  /** The key under which a delegated call was remembered. */
  function CallKey(c: Call): (r: Json)
  {
    ArgsKey(c.jobClass, c.args)
  }

  /** The thread-local state. `cache` is the thread-local hash of seen keys, `None` while it is
      still nil; `depth` is the transaction nesting depth (nil reads as 0). `calls` logs every call
      that reached the original `enqueue`, and `since` is the position in that log where the
      current cache began. */
  datatype Tracker = Tracker(cache: Option<set<Json>>, depth: nat, calls: seq<Call>, since: nat)

  /** The state of a thread that has never opened a transaction. */
  const Initial: Tracker := Tracker(None, 0, [], 0)

  /** The keys of a run of delegated calls. */
  function KeysOf(cs: seq<Call>): (r: set<Json>)
  {
    set c | c in cs :: CallKey(c)
  }

  /** No two calls of a run share a key. */
  predicate KeysUnique(cs: seq<Call>)
  {
    forall i, j :: 0 <= i < j < |cs| ==> CallKey(cs[i]) != CallKey(cs[j])
  }

  /** The calls delegated since the cache was last emptied. */
  function Epoch(t: Tracker): (r: seq<Call>)
    requires t.since <= |t.calls|
  {
    t.calls[t.since..]
  }

  /** The deduplication invariant: the cache holds exactly the keys of the calls delegated since
      it was last emptied, and no key was delegated twice in that time. Before the first
      transaction there is no cache, no depth and no call. */
  ghost predicate Inv(t: Tracker)
  {
    t.since <= |t.calls| &&
    (t.cache.None? ==> t.depth == 0 && t.calls == []) &&
    (t.cache.Some? ==> KeysOf(Epoch(t)) == t.cache.value && KeysUnique(Epoch(t)))
  }

  /** `start_que_unique_handled_transaction`: the cache is created empty only if it is nil
      (`||= {}`), and the depth goes up by one. */
  function Start(t: Tracker): (r: Tracker)
    ensures r.cache == (if t.cache.None? then Some({}) else t.cache)
    ensures r.depth == t.depth + 1
    ensures r.calls == t.calls && r.since == t.since
  {
    Tracker(if t.cache.None? then Some({}) else t.cache, t.depth + 1, t.calls, t.since)
  }

  /** `end_que_unique_handled_transaction`: the depth goes down by one, and the cache is replaced
      by an empty one exactly when the depth reaches zero. */
  function End(t: Tracker): (r: Tracker)
    requires t.depth >= 1
    ensures r.depth == t.depth - 1
    ensures r.cache == (if r.depth == 0 then Some({}) else t.cache)
    ensures r.calls == t.calls
    ensures r.since == (if r.depth == 0 then |t.calls| else t.since)
  {
    var d := t.depth - 1;
    if d == 0 then Tracker(Some({}), 0, t.calls, |t.calls|) else t.(depth := d)
  }

  datatype Error =
    | OutsideTransaction(jobClass: string)  // "UniqueQueJob ... being scheduled outside a transaction"
    | DelegateFailed                        // raised by the original enqueue, passed on unchanged

  datatype EnqueueResult = Enqueued | AlreadyScheduled | Raised(error: Error)

  datatype Step = Step(state: Tracker, result: EnqueueResult)

  /** `enqueue_before_unique(*args)` on job class `jobClass`; `delegateFails` is whether the
      original `enqueue`, if it is reached, raises. */
  function Enqueue(t: Tracker, jobClass: string, args: seq<Value>, delegateFails: bool): (r: Step)
    // the guard is on the cache being there, not on the depth
    ensures r.result == Raised(OutsideTransaction(jobClass)) <==> t.cache.None?
    ensures t.cache.None? ==> r.state == t
    // the key is marked whatever the delegate then does, and nothing is ever removed
    ensures t.cache.Some? ==> r.state.cache == Some(t.cache.value + {Fingerprint(jobClass, args)})
    // the delegate is reached once for a new key, with the canonicalised arguments, never for a known one
    ensures r.state.calls == t.calls +
              if t.cache.Some? && Fingerprint(jobClass, args) !in t.cache.value
              then [Call(jobClass, CanonicaliseArgs(args))] else []
    ensures r.result == AlreadyScheduled <==> t.cache.Some? && Fingerprint(jobClass, args) in t.cache.value
    ensures r.result == Raised(DelegateFailed) <==> |r.state.calls| > |t.calls| && delegateFails
    ensures r.result == Enqueued <==> t.cache.Some? && Fingerprint(jobClass, args) !in t.cache.value && !delegateFails
    ensures r.state.depth == t.depth && r.state.since == t.since
  {
    match t.cache
    case None => Step(t, Raised(OutsideTransaction(jobClass)))
    case Some(seen) =>
      var canonical := CanonicaliseArgs(args);
      var key := ArgsKey(jobClass, canonical);
      if key in seen then
        assert seen + {key} == seen;
        Step(t, AlreadyScheduled)
      else
        var marked := t.(cache := Some(seen + {key}), calls := t.calls + [Call(jobClass, canonical)]);
        Step(marked, if delegateFails then Raised(DelegateFailed) else Enqueued)
  }

  /** The block given to `transaction`, as a list of the things it does in order. */
  datatype Op =
    | EnqueueJob(jobClass: string, args: seq<Value>, delegateFails: bool)
    | Nested(body: Block)   // `ActiveRecord::Base.transaction do ... end`
    | Fail                  // `raise`
    | Rescue(body: Block)   // `begin ... rescue end`
  datatype Block = Done | Then(op: Op, rest: Block)

  /** The state after running a block, and whether it ended by raising. */
  datatype Outcome = Outcome(state: Tracker, raised: bool)

  /** `transaction(&block)`: start, run the block, and end on every exit path (`ensure`). */
  function Transact(t: Tracker, body: Block): (r: Outcome)
    ensures r.state.depth == t.depth
    decreases body, 1
  {
    var inner := Execute(Start(t), body);
    Outcome(End(inner.state), inner.raised)
  }

  /** Runs a block; an exception skips the rest of it and propagates. */
  function Execute(t: Tracker, b: Block): (r: Outcome)
    ensures r.state.depth == t.depth
    decreases b, 0
  {
    match b
    case Done => Outcome(t, false)
    case Then(op, rest) =>
      var o :=
        match op
        case EnqueueJob(jobClass, args, fails) =>
          var s := Enqueue(t, jobClass, args, fails);
          Outcome(s.state, s.result.Raised?)
        case Nested(body) => Transact(t, body)
        case Fail => Outcome(t, true)
        case Rescue(body) => Outcome(Execute(t, body).state, false);
      if o.raised then o else Execute(o.state, rest)
  }

  // ---------------------------------------------------------------------------------------
  // The invariant is kept by every operation.

  lemma StartKeepsInv(t: Tracker)
    requires Inv(t)
    ensures Inv(Start(t))
  {
  }

  lemma EndKeepsInv(t: Tracker)
    requires Inv(t) && t.depth >= 1
    ensures Inv(End(t))
  {
  }

  lemma EnqueueKeepsInv(t: Tracker, jobClass: string, args: seq<Value>, delegateFails: bool)
    requires Inv(t)
    ensures Inv(Enqueue(t, jobClass, args, delegateFails).state)
  {
    if t.cache.Some? && Fingerprint(jobClass, args) !in t.cache.value {
      var c := Call(jobClass, CanonicaliseArgs(args));
      var r := Enqueue(t, jobClass, args, delegateFails).state;
      assert Epoch(r) == Epoch(t) + [c];
      assert CallKey(c) == Fingerprint(jobClass, args);
      assert KeysOf(Epoch(t) + [c]) == KeysOf(Epoch(t)) + {CallKey(c)} by {
        forall x | x in Epoch(t) + [c] ensures x in Epoch(t) || x == c { }
      }
    }
  }

  /** However a transaction's block ends, normally or by raising, at most one call per key
      reaches Que between two resets of the cache, and the cache records exactly those keys. */
  lemma {:induction false} TransactKeepsInv(t: Tracker, body: Block)
    requires Inv(t)
    ensures Inv(Transact(t, body).state)
    decreases body, 1
  {
    StartKeepsInv(t);
    ExecuteKeepsInv(Start(t), body);
    EndKeepsInv(Execute(Start(t), body).state);
  }

  lemma {:induction false} ExecuteKeepsInv(t: Tracker, b: Block)
    requires Inv(t)
    ensures Inv(Execute(t, b).state)
    decreases b, 0
  {
    match b
    case Done =>
    case Then(op, rest) =>
      match op
      case EnqueueJob(jobClass, args, fails) =>
        EnqueueKeepsInv(t, jobClass, args, fails);
        ExecuteKeepsInv(Enqueue(t, jobClass, args, fails).state, rest);
      case Nested(body) =>
        TransactKeepsInv(t, body);
        ExecuteKeepsInv(Transact(t, body).state, rest);
      case Fail =>
      case Rescue(body) =>
        ExecuteKeepsInv(t, body);
        ExecuteKeepsInv(Execute(t, body).state, rest);
  }

  // ---------------------------------------------------------------------------------------
  // Lifetime of the cache.

  /** A transaction opened at the top level leaves depth 0 and an empty, initialised cache,
      whatever happened inside it and however deep it nested. */
  lemma TopLevelTransactionResets(t: Tracker, body: Block)
    requires t.depth == 0
    ensures Transact(t, body).state.depth == 0
    ensures Transact(t, body).state.cache == Some({})
  {
  }

  /** Inside a transaction, a block only adds keys and calls: a nested transaction that raises
      does not remove what was marked inside it, and the cache stays initialised. */
  lemma {:induction false} NestedKeepsKeys(t: Tracker, b: Block)
    requires t.depth >= 1 && t.cache.Some?
    ensures Execute(t, b).state.cache.Some?
    ensures t.cache.value <= Execute(t, b).state.cache.value
    ensures t.calls <= Execute(t, b).state.calls
    ensures Execute(t, b).state.since == t.since
    decreases b
  {
    match b
    case Done =>
    case Then(op, rest) =>
      match op
      case EnqueueJob(jobClass, args, fails) =>
        NestedKeepsKeys(Enqueue(t, jobClass, args, fails).state, rest);
      case Nested(body) =>
        NestedKeepsKeys(Start(t), body);
        NestedKeepsKeys(Transact(t, body).state, rest);
      case Fail =>
      case Rescue(body) =>
        NestedKeepsKeys(t, body);
        NestedKeepsKeys(Execute(t, body).state, rest);
  }

  /** The end of a nested transaction touches only the depth: the cache is exactly what the
      block left, so every key marked inside the nested transaction is still marked. */
  lemma NestedEndKeepsMarks(t: Tracker, body: Block)
    requires t.depth >= 1
    ensures Transact(t, body).state.cache == Execute(Start(t), body).state.cache
    ensures Transact(t, body).state.calls == Execute(Start(t), body).state.calls
  {
  }

  /** Delegated calls are never taken back, at any depth, and an initialised cache is never
      turned back into nil. */
  lemma {:induction false} CallsOnlyGrow(t: Tracker, b: Block)
    ensures t.calls <= Execute(t, b).state.calls
    ensures t.cache.Some? ==> Execute(t, b).state.cache.Some?
    decreases b, 0
  {
    match b
    case Done =>
    case Then(op, rest) =>
      match op
      case EnqueueJob(jobClass, args, fails) =>
        CallsOnlyGrow(Enqueue(t, jobClass, args, fails).state, rest);
      case Nested(body) =>
        CallsOnlyGrow(Start(t), body);
        CallsOnlyGrow(Transact(t, body).state, rest);
      case Fail =>
      case Rescue(body) =>
        CallsOnlyGrow(t, body);
        CallsOnlyGrow(Execute(t, body).state, rest);
  }

  /** Once a transaction has completed the cache is `{}` rather than nil, so an enqueue at depth 0
      is no longer rejected: it reaches Que, and its key stays marked in the next transaction
      until that one ends. */
  lemma EnqueueAfterTransactionAccepted(t: Tracker, body: Block, jobClass: string, args: seq<Value>,
                                        delegateFails: bool)
    requires t.depth == 0
    ensures var after := Enqueue(Transact(t, body).state, jobClass, args, delegateFails);
            after.result != Raised(OutsideTransaction(jobClass)) &&
            after.result != AlreadyScheduled &&
            after.state.calls == Transact(t, body).state.calls + [Call(jobClass, CanonicaliseArgs(args))] &&
            Fingerprint(jobClass, args) in Start(after.state).cache.value
  {
  }

  // ---------------------------------------------------------------------------------------
  // The scenarios the deduplication is for.

  /** `n.times { Job.enqueue(*args) }` */
  function Repeat(op: Op, n: nat): (r: Block)
  {
    if n == 0 then Done else Then(op, Repeat(op, n - 1))
  }

  /** Enqueuing the same job and arguments any number of times reaches Que at most once. */
  lemma {:induction false} RepeatedEnqueueDelegatesOnce(t: Tracker, jobClass: string, args: seq<Value>, n: nat)
    requires t.cache.Some? && n >= 1
    ensures var r := Execute(t, Repeat(EnqueueJob(jobClass, args, false), n));
            !r.raised &&
            r.state.calls == t.calls +
              if Fingerprint(jobClass, args) in t.cache.value then [] else [Call(jobClass, CanonicaliseArgs(args))]
  {
    var op := EnqueueJob(jobClass, args, false);
    var s := Enqueue(t, jobClass, args, false).state;
    assert Fingerprint(jobClass, args) in s.cache.value;
    KnownKeyIsNoOp(s, jobClass, args, n - 1);
  }

  lemma {:induction false} KnownKeyIsNoOp(t: Tracker, jobClass: string, args: seq<Value>, n: nat)
    requires t.cache.Some? && Fingerprint(jobClass, args) in t.cache.value
    ensures Execute(t, Repeat(EnqueueJob(jobClass, args, false), n)) == Outcome(t, false)
  {
    if n > 0 {
      KnownKeyIsNoOp(t, jobClass, args, n - 1);
    }
  }

  /** Three enqueues of the same job and arguments in one transaction give one job, unless the
      key was already marked when the transaction began (by an enqueue made at depth 0 after an
      earlier transaction), in which case they give none. */
  lemma ThreeTimesInOneTransaction(t: Tracker, jobClass: string, args: seq<Value>)
    ensures var r := Transact(t, Repeat(EnqueueJob(jobClass, args, false), 3));
            !r.raised &&
            r.state.calls == t.calls +
              if t.cache.Some? && Fingerprint(jobClass, args) in t.cache.value
              then [] else [Call(jobClass, CanonicaliseArgs(args))]
  {
    RepeatedEnqueueDelegatesOnce(Start(t), jobClass, args, 3);
  }

  /** Scenario of the rollback test: inside an outer transaction that has marked `args1`, a
      nested transaction enqueues `args1` again (ignored) and `args2` (delegated) and then
      raises; after the rescued failure the depth is back to one and both keys are marked. */
  lemma RescuedNestedFailureKeepsKeys(t: Tracker, jobClass: string, args1: seq<Value>, args2: seq<Value>)
    requires t.depth == 1 && t.cache == Some({Fingerprint(jobClass, args1)})
    requires Fingerprint(jobClass, args2) != Fingerprint(jobClass, args1)
    ensures var inner := Then(EnqueueJob(jobClass, args1, false),
                              Then(EnqueueJob(jobClass, args2, false), Then(Fail, Done)));
            var r := Execute(t, Then(Rescue(Then(Nested(inner), Done)), Done));
            !r.raised && r.state.depth == 1 &&
            r.state.cache == Some({Fingerprint(jobClass, args1), Fingerprint(jobClass, args2)}) &&
            r.state.calls == t.calls + [Call(jobClass, CanonicaliseArgs(args2))]
  {
    var k1, k2 := Fingerprint(jobClass, args1), Fingerprint(jobClass, args2);
    var s0 := Start(t);
    assert s0.cache == Some({k1});
    var s1 := Enqueue(s0, jobClass, args1, false);
    assert s1.state == s0;
    var s2 := Enqueue(s0, jobClass, args2, false);
    assert s2.state.cache == Some(s0.cache.value + {k2});
    assert s0.cache.value + {k2} == {k1, k2};
    var inner := Then(EnqueueJob(jobClass, args1, false),
                      Then(EnqueueJob(jobClass, args2, false), Then(Fail, Done)));
    assert Execute(s2.state, Then(Fail, Done)) == Outcome(s2.state, true);
    assert Execute(s0, Then(EnqueueJob(jobClass, args2, false), Then(Fail, Done))) == Outcome(s2.state, true);
    assert Execute(s0, inner) == Outcome(s2.state, true);
    assert Transact(t, inner) == Outcome(End(s2.state), true);
  }
}
