/** `Que::Unique.canonicalise_que_unique_arg` and the JSON key `enqueue` builds from a job
    class and its canonicalised arguments (lib/que/unique.rb). */
module Canonical {
  import opened Ordering
  import opened Values

  /** A Class becomes its name, a Hash is rebuilt from its entries sorted by key, anything else
      is returned unchanged. Only the top level is touched. */
  function Canonicalise(v: Value): (r: Value)
    ensures v.ClassRef? ==> r == Str(v.className)
    ensures v.Hash? ==> r.Hash? && r.keys == v.keys && SortedByKey(r.entries)
                        && multiset(r.entries) == multiset(v.entries)
    ensures !v.ClassRef? && !v.Hash? ==> r == v
  {
    match v
    case ClassRef(name) => Str(name)
    case Hash(keys, entries) => Hash(keys, SortByKey(entries))
    case _ => v
  }

  /** `args.map { |arg| canonicalise_que_unique_arg(arg) }` */
  function CanonicaliseArgs(args: seq<Value>): (r: seq<Value>)
    ensures |r| == |args|
    ensures forall k :: 0 <= k < |args| ==> r[k] == Canonicalise(args[k])
  {
    seq(|args|, k requires 0 <= k < |args| => Canonicalise(args[k]))
  }

  /** `{ job_class => canonical_args }.to_json`: the class, used as a hash key, becomes its name. */
  function ArgsKey(jobClass: string, canonicalArgs: seq<Value>): (r: Json)
    ensures r.JObject? && |r.members| == 1 && r.members[0].0 == jobClass
    ensures r.members[0].1.JArray? && |r.members[0].1.items| == |canonicalArgs|
    ensures forall k :: 0 <= k < |canonicalArgs| ==> r.members[0].1.items[k] == ToJson(canonicalArgs[k])
  {
    JObject([(jobClass, JArray(seq(|canonicalArgs|, k requires 0 <= k < |canonicalArgs| => ToJson(canonicalArgs[k]))))])
  }

  /** The key under which an enqueue of `jobClass` with `args` is remembered. */
  function Fingerprint(jobClass: string, args: seq<Value>): (r: Json)
    ensures r.JObject? && |r.members| == 1 && r.members[0].0 == jobClass
    ensures r.members[0].1.JArray? && |r.members[0].1.items| == |args|
    ensures forall k :: 0 <= k < |args| ==> r.members[0].1.items[k] == ToJson(Canonicalise(args[k]))
  {
    ArgsKey(jobClass, CanonicaliseArgs(args))
  }

  /** Canonicalising twice is canonicalising once. */
  lemma CanonicaliseIdempotent(v: Value)
    ensures Canonicalise(Canonicalise(v)) == Canonicalise(v)
  {
    if v.Hash? {
      SortSortedIsIdentity(Canonicalise(v).entries);
    }
  }

  /** Two hashes canonicalise to the same value exactly when they hold the same entries, in
      whatever order they were inserted. */
  lemma HashOrderIrrelevant(keys: KeyKind, e1: seq<(string, Value)>, e2: seq<(string, Value)>)
    requires KeysDistinct(e1)
    ensures Canonicalise(Hash(keys, e1)) == Canonicalise(Hash(keys, e2)) <==> multiset(e1) == multiset(e2)
  {
    if multiset(e1) == multiset(e2) {
      var s1, s2 := SortByKey(e1), SortByKey(e2);
      DistinctIsFunctional(e1);
      assert KeyFunctional(s1) by {
        forall x | x in s1 ensures x in e1 {
          assert x in multiset(s1);
        }
      }
      SortedUnique(s1, s2);
    }
  }

  /** Two enqueues share a key exactly when they name the same job class and their
      canonicalised arguments agree position by position up to what JSON cannot distinguish. */
  lemma FingerprintEquality(j1: string, a1: seq<Value>, j2: string, a2: seq<Value>)
    ensures (Fingerprint(j1, a1) == Fingerprint(j2, a2)) <==>
              j1 == j2 && |a1| == |a2| &&
              forall k :: 0 <= k < |a1| ==> JsonNormal(Canonicalise(a1[k])) == JsonNormal(Canonicalise(a2[k]))
  {
    var c1, c2 := CanonicaliseArgs(a1), CanonicaliseArgs(a2);
    var s1 := seq(|c1|, k requires 0 <= k < |c1| => ToJson(c1[k]));
    var s2 := seq(|c2|, k requires 0 <= k < |c2| => ToJson(c2[k]));
    assert Fingerprint(j1, a1) == JObject([(j1, JArray(s1))]);
    assert Fingerprint(j2, a2) == JObject([(j2, JArray(s2))]);
    forall k | 0 <= k < |a1| && k < |a2|
      ensures s1[k] == s2[k] <==> JsonNormal(Canonicalise(a1[k])) == JsonNormal(Canonicalise(a2[k]))
    {
      SameJsonIffSameNormal(c1[k], c2[k]);
    }
    if |a1| == |a2| && (forall k :: 0 <= k < |a1| ==> JsonNormal(Canonicalise(a1[k])) == JsonNormal(Canonicalise(a2[k]))) {
      assert s1 == s2;
    }
  }

  /** Replacing one argument by another with the same canonical form keeps the key. */
  lemma SameCanonicalSameKey(jobClass: string, args: seq<Value>, i: nat, v: Value, w: Value)
    requires i < |args| && Canonicalise(v) == Canonicalise(w)
    ensures Fingerprint(jobClass, args[i := v]) == Fingerprint(jobClass, args[i := w])
  {
    assert CanonicaliseArgs(args[i := v]) == CanonicaliseArgs(args[i := w]);
  }

  /** A hash argument gives the same key whatever the insertion order of its entries. */
  lemma HashArgumentOrderIrrelevant(jobClass: string, args: seq<Value>, i: nat,
                                    keys: KeyKind, e1: seq<(string, Value)>, e2: seq<(string, Value)>)
    requires i < |args| && KeysDistinct(e1) && multiset(e1) == multiset(e2)
    ensures Fingerprint(jobClass, args[i := Hash(keys, e1)]) == Fingerprint(jobClass, args[i := Hash(keys, e2)])
  {
    HashOrderIrrelevant(keys, e1, e2);
    SameCanonicalSameKey(jobClass, args, i, Hash(keys, e1), Hash(keys, e2));
  }

  /** A Class argument and a String holding its name give the same key. */
  lemma ClassAndNameSameKey(jobClass: string, args: seq<Value>, i: nat, name: string)
    requires i < |args|
    ensures Fingerprint(jobClass, args[i := ClassRef(name)]) == Fingerprint(jobClass, args[i := Str(name)])
  {
    SameCanonicalSameKey(jobClass, args, i, ClassRef(name), Str(name));
  }

  /** A Symbol argument and a String with the same characters give the same key, although the
      job would receive different arguments. */
  lemma SymbolAndStringSameKey(jobClass: string, args: seq<Value>, i: nat, name: string)
    requires i < |args|
    ensures Fingerprint(jobClass, args[i := Sym(name)]) == Fingerprint(jobClass, args[i := Str(name)])
    ensures args[i := Sym(name)] != args[i := Str(name)]
  {
    FingerprintEquality(jobClass, args[i := Sym(name)], jobClass, args[i := Str(name)]);
    assert args[i := Sym(name)][i] != args[i := Str(name)][i];
  }

  /** The job class is part of the key. */
  lemma JobClassInKey(j1: string, j2: string, a1: seq<Value>, a2: seq<Value>)
    requires j1 != j2
    ensures Fingerprint(j1, a1) != Fingerprint(j2, a2)
  {
  }

  /** Arguments that differ in one String give different keys. */
  lemma DifferentStringsDifferentKeys(jobClass: string, args: seq<Value>, i: nat, s: string, t: string)
    requires i < |args| && s != t
    ensures Fingerprint(jobClass, args[i := Str(s)]) != Fingerprint(jobClass, args[i := Str(t)])
  {
    FingerprintEquality(jobClass, args[i := Str(s)], jobClass, args[i := Str(t)]);
    assert args[i := Str(s)][i] == Str(s) && args[i := Str(t)][i] == Str(t);
  }

  /** The entries of a hash with each value replaced by its JSON normal form. */
  function NormalEntries(e: seq<(string, Value)>): (r: seq<(string, Value)>)
    ensures |r| == |e|
    ensures forall k :: 0 <= k < |e| ==> r[k] == (e[k].0, JsonNormal(e[k].1))
  {
    seq(|e|, k requires 0 <= k < |e| => (e[k].0, JsonNormal(e[k].1)))
  }

  /** The sort looks only at keys, so it commutes with normalising the values. */
  lemma {:induction false} InsertNormal(x: (string, Value), s: seq<(string, Value)>)
    ensures NormalEntries(Insert(x, s)) == Insert((x.0, JsonNormal(x.1)), NormalEntries(s))
  {
    if s != [] && !StrLe(x.0, s[0].0) {
      InsertNormal(x, s[1..]);
      assert NormalEntries(s)[1..] == NormalEntries(s[1..]);
    }
  }

  lemma {:induction false} SortNormal(e: seq<(string, Value)>)
    ensures NormalEntries(SortByKey(e)) == SortByKey(NormalEntries(e))
  {
    if e != [] {
      SortNormal(e[1..]);
      InsertNormal(e[0], SortByKey(e[1..]));
      assert NormalEntries(e)[1..] == NormalEntries(e[1..]);
    }
  }

  /** Two hashes are indistinguishable to JSON after canonicalisation exactly when they hold the
      same entries up to JSON-normal values, in whatever order and with whatever kind of key. */
  lemma CanonicalHashesSameJsonIff(keys1: KeyKind, e1: seq<(string, Value)>, keys2: KeyKind, e2: seq<(string, Value)>)
    requires KeysDistinct(e1)
    ensures (JsonNormal(Canonicalise(Hash(keys1, e1))) == JsonNormal(Canonicalise(Hash(keys2, e2))))
            <==> multiset(NormalEntries(e1)) == multiset(NormalEntries(e2))
  {
    var n1, n2 := NormalEntries(e1), NormalEntries(e2);
    SortNormal(e1);
    SortNormal(e2);
    assert JsonNormal(Canonicalise(Hash(keys1, e1))) == Hash(StringKeys, SortByKey(n1));
    assert JsonNormal(Canonicalise(Hash(keys2, e2))) == Hash(StringKeys, SortByKey(n2));
    if multiset(n1) == multiset(n2) {
      assert KeysDistinct(n1);
      DistinctIsFunctional(n1);
      var s1 := SortByKey(n1);
      assert KeyFunctional(s1) by {
        forall x | x in s1 ensures x in n1 {
          assert x in multiset(s1);
        }
      }
      SortedUnique(s1, SortByKey(n2));
    }
  }

  /** Two hash arguments give the same key exactly when they hold the same entries up to what
      JSON cannot distinguish in the values. */
  lemma HashArgumentsSameKeyIff(jobClass: string, args: seq<Value>, i: nat,
                                keys1: KeyKind, e1: seq<(string, Value)>, keys2: KeyKind, e2: seq<(string, Value)>)
    requires i < |args| && KeysDistinct(e1)
    ensures (Fingerprint(jobClass, args[i := Hash(keys1, e1)]) == Fingerprint(jobClass, args[i := Hash(keys2, e2)]))
            <==> multiset(NormalEntries(e1)) == multiset(NormalEntries(e2))
  {
    var a1, a2 := args[i := Hash(keys1, e1)], args[i := Hash(keys2, e2)];
    FingerprintEquality(jobClass, a1, jobClass, a2);
    CanonicalHashesSameJsonIff(keys1, e1, keys2, e2);
    assert a1[i] == Hash(keys1, e1) && a2[i] == Hash(keys2, e2);
    assert forall k :: 0 <= k < |a1| && k != i ==> a1[k] == a2[k];
  }
}
