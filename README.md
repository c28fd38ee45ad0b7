# que-unique in Dafny

A model of que-unique, the Ruby gem that puts a per-thread deduplication layer in front of
Que's `Job.enqueue`. The layer has two parts.

- The `transaction` wrapper (`lib/que/unique/transaction_class_methods.rb`) counts how deeply
  ActiveRecord transactions are nested. On entry it creates the thread's cache of seen keys if
  that cache is nil, and it increments the depth. In an `ensure` it decrements the depth, and it
  replaces the cache with an empty one when the depth reaches zero.
- `enqueue_before_unique` (`lib/que/unique.rb`) first raises if the cache is nil. It then
  canonicalises each argument: a Class becomes its name, and a Hash is rebuilt from its sorted
  entries. It builds the key `{ job_class => canonical_args }.to_json`. A key already in the cache
  is skipped. A new key is marked first, and only then is the original `enqueue` called, with the
  canonicalised arguments.

Files and modules:

- `ordering.dfy`, module `Ordering`: Ruby's String/Symbol `<=>` as `StrLe`, and the sort applied to
  a hash's entries. It proves the sort returns the same entries, in order, and that the sorted
  order depends only on which entries there are.
- `values.dfy`, module `Values`: the Ruby argument values, JSON trees, `to_json`, and `JsonNormal`.
  `JsonNormal` says exactly which values `to_json` cannot tell apart.
- `canonical.dfy`, module `Canonical`: `canonicalise_que_unique_arg`, the key construction, and
  exact statements of when two enqueues share a key.
- `transactions.dfy`, module `Transactions`: the thread-local state as a value (`Tracker`). It
  gives start, end, enqueue and the `transaction` wrapper as functions on that value, a small
  language for the block passed to `transaction` (enqueue, nested transaction, raise, rescue),
  and the deduplication invariant with its lemmas.
- `unique_state.dfy`, module `UniqueState`: the thread-local state as an object (`ThreadState`)
  updated in place. Each method is proved equal to the matching function in `Transactions`.
  The method `ThreadScenario` is an example of a thread's lifecycle: an enqueue rejected before
  any transaction, three enqueues deduplicated inside one, and enqueues accepted at depth 0
  afterwards.
- `scenarios.dfy`, module `Scenarios`: the argument examples of `spec/que/unique_spec.rb`.

What the outside world does becomes a parameter or a log:

- Whether the original Que `enqueue` raises is the parameter `delegateFails`.
- Every call that reaches it is appended to the log `calls`, which is ghost in `ThreadState`.
- A transaction block is a `Block` value.
- What happens in the database is not modelled.

Behaviour of the code worth knowing:

- The guard in `enqueue` checks that the cache is present, not that the depth is at least 1
  (`lib/que/unique.rb:17-20`). Once one transaction has completed, the cache is `{}` and no longer
  nil. From then on, an enqueue at depth 0 is accepted and reaches Que
  (`Transactions.EnqueueAfterTransactionAccepted`). Its key stays marked until the next time the
  depth goes from 1 to 0, so a first enqueue inside the next transaction can be skipped
  (`Transactions.ThreeTimesInOneTransaction`).
- A Class argument and a String holding its name give the same key, because the Class is turned
  into that String before the key is built (`Canonical.ClassAndNameSameKey`).
- Canonicalisation is shallow. Only top-level arguments are rewritten. A hash is sorted only at
  its own level. Hashes and classes nested inside arguments are left untouched.
- All arguments are positional (`*args`). There is no separate options group, and keyword
  arguments arrive as a trailing Hash.
- No serialisation error exists in the model: every value of `Values.Value` has a JSON form.

## Model

| member | source | states |
|---|---|---|
| `Ordering.StrLe` | lib/que/unique.rb:51 | Ruby's String/Symbol `<=>` on hash keys: a proper prefix comes first (its ensures); `StrLeReflexive`, `StrLeTotal`, `StrLeAntisymmetric` and `StrLeTransitive` prove it a total order |
| `Ordering.StrLeTotal` | lib/que/unique.rb:51 | any two hash keys are comparable under Ruby's String/Symbol `<=>`, so `sort` never has to give up |
| `Ordering.StrLeAntisymmetric` | lib/que/unique.rb:51 | two keys that are each `<=` the other are the same key |
| `Ordering.StrLeTransitive` | lib/que/unique.rb:51 | the key order is transitive |
| `Ordering.Insert` | lib/que/unique.rb:51 | one insertion step of the sort adds exactly the inserted entry to the entries |
| `Ordering.InsertSorted` | lib/que/unique.rb:51 | inserting into sorted entries keeps them sorted by key |
| `Ordering.SortByKey` | lib/que/unique.rb:51 | `value.sort` returns the same multiset of entries, in ascending key order |
| `Ordering.SortSortedIsIdentity` | lib/que/unique.rb:51 | sorting entries that are already in key order changes nothing |
| `Ordering.SortedUnique` | lib/que/unique.rb:48-51 | two key-sorted entry lists with the same entries, where no key has two values, are equal, whatever order the entries were inserted in |
| `Ordering.DistinctIsFunctional` | lib/que/unique.rb:48-51 | in a hash with distinct keys, no key is paired with two different values |
| `Values.ToJson` | lib/que/unique.rb:24 | `to_json` of an argument: a Symbol becomes the String of its name, a Class not converted beforehand becomes `{}`, an Array keeps its length, a Hash keeps its keys as strings in insertion order; `SameJsonIffSameNormal` states exactly which values it identifies |
| `Values.ToJsonOfNormal` | lib/que/unique.rb:24 | a value and its normal form (Symbols as Strings, all hash keys as Strings, Classes as `{}`) serialise identically |
| `Values.SameJsonSameNormal` | lib/que/unique.rb:24 | values that serialise to the same JSON have the same normal form |
| `Values.SameJsonIffSameNormal` | lib/que/unique.rb:24 | `to_json` equates two values if and only if their normal forms are equal: it identifies a Symbol with the String of its name, Symbol keys with String keys, and a non-top-level Class with `{}` |
| `Canonical.Canonicalise` | lib/que/unique.rb:42-55 | a Class becomes the String of its name; a Hash becomes a Hash with the same key kind and the same entries, sorted by key; any other value is returned unchanged |
| `Canonical.CanonicaliseArgs` | lib/que/unique.rb:23 | each argument is canonicalised on its own and the argument count is kept |
| `Canonical.ArgsKey` | lib/que/unique.rb:24 | the key `{ job_class => canonical_args }.to_json` is an object with the job class as its one member, holding the JSON of each canonical argument in position |
| `Canonical.Fingerprint` | lib/que/unique.rb:22-24 | the key of an enqueue holds the job class and the JSON of each canonicalised argument in position; `FingerprintEquality` states when two keys are equal |
| `Canonical.CanonicaliseIdempotent` | lib/que/unique.rb:42-55 | canonicalising a canonical value changes nothing |
| `Canonical.HashOrderIrrelevant` | lib/que/unique.rb:48-51 | two hashes, the first with distinct keys, canonicalise to the same value exactly when they hold the same entries, in any insertion order |
| `Canonical.FingerprintEquality` | lib/que/unique.rb:22-24 | two enqueues share a key if and only if they name the same job class, pass the same number of arguments, and their canonicalised arguments agree position by position up to JSON normal form |
| `Canonical.SameCanonicalSameKey` | lib/que/unique.rb:23-24 | replacing one argument by another with the same canonical form keeps the key |
| `Canonical.HashArgumentOrderIrrelevant` | lib/que/unique.rb:48-51 | a hash argument gives the same key whatever the insertion order of its entries |
| `Canonical.ClassAndNameSameKey` | lib/que/unique.rb:44-47 | a Class argument and the String of its name give the same key |
| `Canonical.SymbolAndStringSameKey` | lib/que/unique.rb:24 | a Symbol argument and the String of the same characters give the same key, though they are different arguments |
| `Canonical.JobClassInKey` | lib/que/unique.rb:24 | enqueues on different job classes never share a key |
| `Canonical.DifferentStringsDifferentKeys` | lib/que/unique.rb:24 | arguments that differ in one String give different keys |
| `Canonical.CanonicalHashesSameJsonIff` | lib/que/unique.rb:48-51 | two canonicalised hashes are indistinguishable to JSON exactly when their entries, with values in JSON normal form, are the same multiset, whatever kind of key the hashes have |
| `Canonical.HashArgumentsSameKeyIff` | lib/que/unique.rb:24 | two enqueues that differ only in one hash argument share a key exactly when the two hashes have the same entries up to JSON normal form of their values |
| `Transactions.Start` | lib/que/unique/transaction_class_methods.rb:20-27 | an existing cache is kept with its entries, and a nil cache becomes an empty one (the or-assign); the depth goes up by exactly 1 |
| `Transactions.End` | lib/que/unique/transaction_class_methods.rb:29-36 | the depth goes down by exactly 1; the cache is replaced by an empty one if and only if the new depth is 0, and is otherwise untouched |
| `Transactions.Enqueue` | lib/que/unique.rb:16-34 | raises `OutsideTransaction` if and only if the cache is nil, whatever the depth, and then changes nothing; otherwise the key is in the cache afterwards and nothing is removed; the original enqueue is called exactly once, with the canonicalised arguments, when the key is new, and never when it is known; a failing delegate still leaves the key marked |
| `Transactions.Transact` | lib/que/unique/transaction_class_methods.rb:11-16 | a transaction restores the depth it started at, whether its block finished or raised |
| `Transactions.Execute` | lib/que/unique/transaction_class_methods.rb:11-16 | running a block, with its nested transactions and rescued failures, leaves the depth where it was |
| `Transactions.StartKeepsInv` | lib/que/unique/transaction_class_methods.rb:20-27 | starting a transaction keeps the deduplication invariant |
| `Transactions.EndKeepsInv` | lib/que/unique/transaction_class_methods.rb:29-36 | ending a transaction keeps the invariant; the reset at depth 0 starts a new cache lifetime with no calls in it |
| `Transactions.EnqueueKeepsInv` | lib/que/unique.rb:27-33 | an enqueue keeps the invariant: the cache holds exactly the keys of the calls delegated since the last reset, and none of them twice |
| `Transactions.TransactKeepsInv` | lib/que/unique/transaction_class_methods.rb:11-16 | however a transaction's block ends, at most one call per key reaches Que between two resets of the cache |
| `Transactions.ExecuteKeepsInv` | lib/que/unique.rb:27-33 | any block of enqueues, nested transactions, raises and rescues keeps the invariant |
| `Transactions.TopLevelTransactionResets` | lib/que/unique/transaction_class_methods.rb:32-35 | a transaction entered at depth 0 leaves depth 0 and an empty cache that is not nil, whatever the maximum depth reached inside it |
| `Transactions.NestedKeepsKeys` | lib/que/unique/transaction_class_methods.rb:32-35 | inside a transaction, a block (including a nested transaction that raises) only adds keys and calls, never removes any, and never starts a new cache lifetime |
| `Transactions.NestedEndKeepsMarks` | lib/que/unique/transaction_class_methods.rb:32-35 | ending a nested transaction leaves the cache exactly as its block left it, so the keys marked inside it stay marked |
| `Transactions.CallsOnlyGrow` | lib/que/unique.rb:31-32 | at any depth, delegated calls are never taken back, and a cache that is present never becomes nil again |
| `Transactions.EnqueueAfterTransactionAccepted` | lib/que/unique/transaction_class_methods.rb:35 | after a completed top-level transaction, an enqueue at depth 0 is not rejected and reaches Que once; its key is still marked when the next transaction starts |
| `Transactions.RepeatedEnqueueDelegatesOnce` | lib/que/unique.rb:27-33 | enqueuing the same job and arguments n >= 1 times in a row reaches Que once if the key was new, and not at all if it was known |
| `Transactions.KnownKeyIsNoOp` | lib/que/unique.rb:27-28 | enqueues of an already-marked key change nothing and raise nothing |
| `Transactions.ThreeTimesInOneTransaction` | spec/que/unique_spec.rb:101-106 | `3.times { enqueue }` in one transaction gives exactly one delegate call, unless the key was marked at depth 0 before the transaction began |
| `Transactions.RescuedNestedFailureKeepsKeys` | spec/que/unique_spec.rb:61-98 | a nested transaction that re-enqueues a known key (ignored), enqueues a new one (delegated) and then raises leaves, once rescued, depth 1 and both keys in the cache |
| `UniqueState.ThreadState.constructor` | lib/que/unique.rb:17-20 | a new thread has no cache, depth 0 and no delegated calls |
| `UniqueState.ThreadState.Start` | lib/que/unique/transaction_class_methods.rb:20-27 | updates the object in place exactly as `Transactions.Start` |
| `UniqueState.ThreadState.End` | lib/que/unique/transaction_class_methods.rb:29-36 | updates the object in place exactly as `Transactions.End` |
| `UniqueState.ThreadState.Enqueue` | lib/que/unique.rb:16-34 | updates the object and returns exactly as `Transactions.Enqueue`, keeping the invariant |
| `UniqueState.ThreadState.Transaction` | lib/que/unique/transaction_class_methods.rb:11-16 | start, block, then end on every exit path, exactly as `Transactions.Transact` |
| `UniqueState.ThreadState.Run` | lib/que/unique/transaction_class_methods.rb:13 | runs a block on the object exactly as `Transactions.Execute` |
| `Scenarios.MultipleArgumentsCanonicalised` | spec/que/unique_spec.rb:215-223 | `enqueue("foo", { bar: :baz }, 4, String)` delegates `["foo", { bar: :baz }, 4, "String"]` |
| `Scenarios.DifferentlyOrderedHashesShareKey` | spec/que/unique_spec.rb:108-118 | `bar: :baz, foo: :qux` and `foo: :qux, bar: :baz` give one key |
| `Scenarios.DifferentHashesDifferentKeys` | spec/que/unique_spec.rb:128-135 | `bar: :baz`, `qux: :baz` and `bar: :qux` give three different keys |
| `Scenarios.ClassArgumentAsName` | spec/que/unique_spec.rb:231-237 | `enqueue(SomeTestClass)` is delegated, and remembered, as `"SomeTestClass"` |
| `Scenarios.TwoJobClassesTwoKeys` | spec/que/unique_spec.rb:239-246 | the same arguments on two job classes give two keys |

## Left out

- Logging (`::Rails.logger.debug`, `lib/que/unique.rb:28` and `:30`) has no functional effect.
- Thread-local storage is one `ThreadState` object per thread. Isolation between threads is a
  concurrency matter and is not modelled.
- The original Que `enqueue` is opaque. It is a log entry plus a flag saying whether it raises. The
  job object it returns, and the database rows it writes, are not modelled.
- ActiveRecord's own `transaction` (`super(...)`) is opaque. The model does not capture commit,
  rollback, or the `ActiveRecord::Rollback` exception that ActiveRecord swallows. Every raise in a
  block propagates out of the model's transaction.
- The `alias_method` swap (`lib/que/unique.rb:36-37`) and the `prepend` onto `DatabaseStatements`
  (`lib/que/unique/transaction_class_methods.rb:41`) are wiring only.
- Hash keys are all Symbols or all Strings, at every depth. A Hash mixing the two kinds, or with
  keys of another type (`{ 1 => "x" }`), is not representable in the model. At the top level a mix
  would make `sort` raise, because Symbol `<=>` String is nil. Nested inside an argument such a
  Hash is never sorted, since canonicalisation is shallow, and Ruby would serialise it; the model
  does not capture those enqueues.
- Values other than nil, booleans, integers, Strings, Symbols, Classes, Arrays and Hashes are left
  out. Floats, Times and arbitrary objects are not modelled, nor is their `to_json`.
- `Ordering.SortByKey`: compares keys only. Ruby compares the values too when two keys are equal,
  but a Ruby Hash never has two equal keys, so this never arises.
- Keys are JSON trees, not JSON text. Generating text from a tree is taken to be deterministic and
  injective. The exact bytes of `to_json`, including its escaping, are not modelled.
- A Class nested inside an argument serialises as `{}`, as the comment at
  `spec/que/unique_spec.rb:229` says of plain `to_json`. A JSON library that writes the name
  instead would make such a class equal to its name string, not to an empty hash.
- A nil depth is modelled as 0. `start` makes it 0 before incrementing it (`||= 0`), and `end`
  only runs after `start`, which is why `End` requires a depth of at least 1.
- `spec/spec_helper.rb`, `spec/support/db_support.rb`, `spec/integration/rails/test.rb` and the job
  classes under `spec/internal/app/models/` hold database setup, the Rails application and job
  bodies. None of them is part of the deduplication logic.
