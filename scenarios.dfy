/** The argument examples of spec/que/unique_spec.rb, stated on the model. */
module Scenarios {
  import opened Ordering
  import opened Values
  import opened Canonical

  const FooBarBaz: Value := Hash(SymbolKeys, [("bar", Sym("baz"))])

  /** `enqueue("foo", { bar: :baz }, 4, String)`: the job receives the class as its name and every
      other argument unchanged. */
  lemma MultipleArgumentsCanonicalised()
    ensures CanonicaliseArgs([Str("foo"), FooBarBaz, Int(4), ClassRef("String")])
            == [Str("foo"), FooBarBaz, Int(4), Str("String")]
  {
    assert SortByKey(FooBarBaz.entries) == FooBarBaz.entries;
  }

  /** `enqueue("foo", bar: :baz, foo: :qux)` and `enqueue("foo", foo: :qux, bar: :baz)` share a key. */
  lemma DifferentlyOrderedHashesShareKey(jobClass: string)
    ensures Fingerprint(jobClass, [Str("foo"), Hash(SymbolKeys, [("bar", Sym("baz")), ("foo", Sym("qux"))])])
         == Fingerprint(jobClass, [Str("foo"), Hash(SymbolKeys, [("foo", Sym("qux")), ("bar", Sym("baz"))])])
  {
    var e1: seq<(string, Value)> := [("bar", Sym("baz")), ("foo", Sym("qux"))];
    var e2: seq<(string, Value)> := [("foo", Sym("qux")), ("bar", Sym("baz"))];
    assert multiset(e1) == multiset(e2) by {
      assert e1 == [e1[0]] + [e1[1]] && e2 == [e1[1]] + [e1[0]];
    }
    HashArgumentOrderIrrelevant(jobClass, [Str("foo"), Nil], 1, SymbolKeys, e1, e2);
    assert [Str("foo"), Nil][1 := Hash(SymbolKeys, e1)] == [Str("foo"), Hash(SymbolKeys, e1)];
    assert [Str("foo"), Nil][1 := Hash(SymbolKeys, e2)] == [Str("foo"), Hash(SymbolKeys, e2)];
  }

  /** `enqueue("foo", bar: :baz)`, `enqueue("foo", qux: :baz)` and `enqueue("foo", bar: :qux)`
      have three different keys. */
  lemma DifferentHashesDifferentKeys(jobClass: string)
    ensures var k1 := Fingerprint(jobClass, [Str("foo"), Hash(SymbolKeys, [("bar", Sym("baz"))])]);
            var k2 := Fingerprint(jobClass, [Str("foo"), Hash(SymbolKeys, [("qux", Sym("baz"))])]);
            var k3 := Fingerprint(jobClass, [Str("foo"), Hash(SymbolKeys, [("bar", Sym("qux"))])]);
            k1 != k2 && k2 != k3 && k1 != k3
  {
    var e1: seq<(string, Value)> := [("bar", Sym("baz"))];
    var e2: seq<(string, Value)> := [("qux", Sym("baz"))];
    var e3: seq<(string, Value)> := [("bar", Sym("qux"))];
    var args := [Str("foo"), Nil];
    assert args[1 := Hash(SymbolKeys, e1)] == [Str("foo"), Hash(SymbolKeys, e1)];
    assert args[1 := Hash(SymbolKeys, e2)] == [Str("foo"), Hash(SymbolKeys, e2)];
    assert args[1 := Hash(SymbolKeys, e3)] == [Str("foo"), Hash(SymbolKeys, e3)];
    HashArgumentsSameKeyIff(jobClass, args, 1, SymbolKeys, e1, SymbolKeys, e2);
    HashArgumentsSameKeyIff(jobClass, args, 1, SymbolKeys, e2, SymbolKeys, e3);
    HashArgumentsSameKeyIff(jobClass, args, 1, SymbolKeys, e1, SymbolKeys, e3);
    assert NormalEntries(e1) == [("bar", Str("baz"))];
    assert NormalEntries(e2) == [("qux", Str("baz"))];
    assert NormalEntries(e3) == [("bar", Str("qux"))];
    assert ("bar", Str("baz")) !in multiset(NormalEntries(e2));
    assert ("qux", Str("baz")) !in multiset(NormalEntries(e3));
    assert ("bar", Str("baz")) !in multiset(NormalEntries(e3));
  }

  /** `enqueue(SomeTestClass)` is remembered, and delegated, as `enqueue("SomeTestClass")`. */
  lemma ClassArgumentAsName(jobClass: string)
    ensures CanonicaliseArgs([ClassRef("SomeTestClass")]) == [Str("SomeTestClass")]
    ensures Fingerprint(jobClass, [ClassRef("SomeTestClass")]) == Fingerprint(jobClass, [Str("SomeTestClass")])
  {
    ClassAndNameSameKey(jobClass, [Nil], 0, "SomeTestClass");
    assert [Nil][0 := ClassRef("SomeTestClass")] == [ClassRef("SomeTestClass")];
    assert [Nil][0 := Str("SomeTestClass")] == [Str("SomeTestClass")];
  }

  /** `TestUniqueJob.enqueue("")` and `TestAnotherUniqueJob.enqueue("")` have different keys. */
  lemma TwoJobClassesTwoKeys()
    ensures Fingerprint("TestUniqueJob", [Str("")]) != Fingerprint("TestAnotherUniqueJob", [Str("")])
  {
    JobClassInKey("TestUniqueJob", "TestAnotherUniqueJob", [Str("")], [Str("")]);
  }
}
