/** The thread-local deduplication state as an object updated in place, the way
    `Thread.current[THREAD_LOCAL_KEY]` and `Thread.current[THREAD_LOCAL_DEPTH_KEY]` are. Each
    method is specified by the function of the same name in module Transactions, whose lemmas
    then hold of the object. */
module UniqueState {
  import opened Values
  import opened Canonical
  import opened Transactions

  class ThreadState {
    /** The hash of seen keys (`None` while the thread local is nil). */
    var cache: Option<set<Json>>
    /** The transaction nesting depth. */
    var depth: nat
    /** Every call that reached the original `enqueue`, standing in for Que. */
    ghost var calls: seq<Call>
    /** Where in `calls` the current cache began. */
    ghost var since: nat

    ghost function State(): Tracker
      reads this
    {
      Tracker(cache, depth, calls, since)
    }

    ghost predicate Valid()
      reads this
    {
      Inv(State())
    }

    /** A thread that has not yet opened a transaction. */
    constructor ()
      ensures State() == Initial && Valid()
    {
      cache := None;
      depth := 0;
      calls := [];
      since := 0;
    }

    /** `start_que_unique_handled_transaction` */
    method Start()
      requires Valid()
      modifies this
      ensures State() == Transactions.Start(old(State())) && Valid()
    {
      StartKeepsInv(State());
      if cache.None? {
        cache := Some({});
      }
      depth := depth + 1;
    }

    /** `end_que_unique_handled_transaction`; only ever run after `Start`. */
    method End()
      requires Valid() && depth >= 1
      modifies this
      ensures State() == Transactions.End(old(State())) && Valid()
    {
      EndKeepsInv(State());
      depth := depth - 1;
      if depth == 0 {
        cache := Some({});
        since := |calls|;
      }
    }

    /** `enqueue_before_unique(*args)`: `delegateFails` is whether the original `enqueue`
        raises when it is reached. */
    method Enqueue(jobClass: string, args: seq<Value>, delegateFails: bool) returns (result: EnqueueResult)
      requires Valid()
      modifies this
      ensures Step(State(), result) == Transactions.Enqueue(old(State()), jobClass, args, delegateFails)
      ensures Valid()
    {
      EnqueueKeepsInv(State(), jobClass, args, delegateFails);
      if cache.None? {
        return Raised(OutsideTransaction(jobClass));
      }
      var canonical := CanonicaliseArgs(args);
      var key := ArgsKey(jobClass, canonical);
      if key in cache.value {
        result := AlreadyScheduled;
      } else {
        cache := Some(cache.value + {key});
        // the key is marked before the original enqueue runs
        calls := calls + [Call(jobClass, canonical)];
        result := if delegateFails then Raised(DelegateFailed) else Enqueued;
      }
    }

    /** `transaction(&block)`: the end runs on every exit path of the block. */
    method Transaction(body: Block) returns (raised: bool)
      requires Valid()
      modifies this
      ensures Outcome(State(), raised) == Transact(old(State()), body)
      ensures Valid()
      decreases body, 1
    {
      Start();
      raised := Run(body);
      End();
    }

    /** Runs the statements of a block until one raises. */
    method Run(b: Block) returns (raised: bool)
      requires Valid()
      modifies this
      ensures Outcome(State(), raised) == Execute(old(State()), b)
      ensures Valid()
      decreases b, 0
    {
      match b
      case Done =>
        raised := false;
      case Then(op, rest) =>
        match op {
          case EnqueueJob(jobClass, args, fails) =>
            var result := Enqueue(jobClass, args, fails);
            raised := result.Raised?;
          case Nested(body) =>
            raised := Transaction(body);
          case Fail =>
            raised := true;
          case Rescue(body) =>
            var _ := Run(body);
            raised := false;
        }
        if !raised {
          raised := Run(rest);
        }
    }
  }

  /** A thread's life: rejected outside any transaction, deduplicated inside one, and accepted at
      depth 0 once a transaction has completed. */
  method ThreadScenario(jobClass: string, args: seq<Value>)
  {
    var thread := new ThreadState();
    var r := thread.Enqueue(jobClass, args, false);
    assert r == Raised(OutsideTransaction(jobClass));
    assert thread.calls == [];

    ghost var before := thread.State();
    var raised := thread.Transaction(Repeat(EnqueueJob(jobClass, args, false), 3));
    ThreeTimesInOneTransaction(before, jobClass, args);
    TopLevelTransactionResets(before, Repeat(EnqueueJob(jobClass, args, false), 3));
    assert !raised && thread.depth == 0 && thread.cache == Some({});
    assert thread.calls == [Call(jobClass, CanonicaliseArgs(args))];

    r := thread.Enqueue(jobClass, args, true);
    assert r == Raised(DelegateFailed);
    assert thread.cache == Some({} + {Fingerprint(jobClass, args)});
    r := thread.Enqueue(jobClass, args, false);
    assert r == AlreadyScheduled;
  }
}
