/** Ordering of hash keys and the sort that canonicalisation applies to a hash's entries.
    Ruby compares two Strings, and two Symbols (by their names), lexicographically by
    their characters, a proper prefix coming first. */
module Ordering {

  /** `a <= b` in Ruby's String#<=> order. */
  predicate StrLe(a: string, b: string)
    // a prefix, proper or not, comes first
    ensures a <= b ==> StrLe(a, b)
    decreases |a|
  {
    a == [] || (b != [] && (a[0] < b[0] || (a[0] == b[0] && StrLe(a[1..], b[1..]))))
  }

  lemma {:induction false} StrLeReflexive(a: string)
    ensures StrLe(a, a)
    decreases |a|
  {
    if a != [] {
      StrLeReflexive(a[1..]);
    }
  }

  lemma {:induction false} StrLeTotal(a: string, b: string)
    ensures StrLe(a, b) || StrLe(b, a)
    decreases |a|
  {
    if a != [] && b != [] && a[0] == b[0] {
      StrLeTotal(a[1..], b[1..]);
    }
  }

  lemma {:induction false} StrLeAntisymmetric(a: string, b: string)
    requires StrLe(a, b) && StrLe(b, a)
    ensures a == b
    decreases |a|
  {
    if a != [] {
      StrLeAntisymmetric(a[1..], b[1..]);
      assert a == [a[0]] + a[1..] && b == [b[0]] + b[1..];
    }
  }

  lemma {:induction false} StrLeTransitive(a: string, b: string, c: string)
    requires StrLe(a, b) && StrLe(b, c)
    ensures StrLe(a, c)
    decreases |a|
  {
    if a != [] && a[0] == b[0] && b[0] == c[0] {
      StrLeTransitive(a[1..], b[1..], c[1..]);
    }
  }

  /** The entries are in ascending key order. */
  predicate SortedByKey<V>(s: seq<(string, V)>)
  {
    forall i, j :: 0 <= i < j < |s| ==> StrLe(s[i].0, s[j].0)
  }

  /** No key occurs twice, as in every Ruby Hash. */
  predicate KeysDistinct<V>(s: seq<(string, V)>)
  {
    forall i, j :: 0 <= i < j < |s| ==> s[i].0 != s[j].0
  }

  /** No key is paired with two different values; implied by distinct keys, and unlike them
      a property of the entries alone, whatever their order. */
  ghost predicate KeyFunctional<V>(s: seq<(string, V)>)
  {
    forall x, y :: x in s && y in s && x.0 == y.0 ==> x == y
  }

  lemma DistinctIsFunctional<V>(s: seq<(string, V)>)
    requires KeysDistinct(s)
    ensures KeyFunctional(s)
  {
    forall x, y | x in s && y in s && x.0 == y.0
      ensures x == y
    {
      var p :| 0 <= p < |s| && s[p] == x;
      var q :| 0 <= q < |s| && s[q] == y;
      assert p == q;
    }
  }

  /** Inserts `e` before the first entry whose key is not below `e`'s. */
  function Insert<V>(e: (string, V), s: seq<(string, V)>): (r: seq<(string, V)>)
    ensures multiset(r) == multiset(s) + multiset{e}
  {
    if s == [] then [e]
    else if StrLe(e.0, s[0].0) then [e] + s
    else
      assert s == [s[0]] + s[1..];
      [s[0]] + Insert(e, s[1..])
  }

  lemma {:induction false} InsertSorted<V>(e: (string, V), s: seq<(string, V)>)
    requires SortedByKey(s)
    ensures SortedByKey(Insert(e, s))
  {
    if s != [] && !StrLe(e.0, s[0].0) {
      StrLeTotal(e.0, s[0].0);
      InsertSorted(e, s[1..]);
      var tail := Insert(e, s[1..]);
      forall x | x in tail
        ensures StrLe(s[0].0, x.0)
      {
        assert x in multiset(tail);
        if x != e {
          assert x in multiset(s[1..]);
          var k :| 0 <= k < |s[1..]| && s[1..][k] == x;
          assert s[k + 1] == x;
        }
      }
      var r := [s[0]] + tail;
      forall i, j | 0 <= i < j < |r|
        ensures StrLe(r[i].0, r[j].0)
      {
        if i == 0 {
          assert r[j] == tail[j - 1];
          assert r[j] in tail;
        } else {
          assert r[i] == tail[i - 1] && r[j] == tail[j - 1];
        }
      }
    } else if s != [] {
      var r := [e] + s;
      forall i, j | 0 <= i < j < |r|
        ensures StrLe(r[i].0, r[j].0)
      {
        if i == 0 && j > 1 {
          StrLeTransitive(e.0, s[0].0, s[j - 1].0);
        }
      }
    }
  }

  /** Insertion sort by key: `value.sort` on a hash with distinct keys, which never has to
      look at the values. */
  function SortByKey<V>(s: seq<(string, V)>): (r: seq<(string, V)>)
    ensures multiset(r) == multiset(s)
    ensures SortedByKey(r)
  {
    if s == [] then []
    else
      var rest := SortByKey(s[1..]);
      InsertSorted(s[0], rest);
      assert s == [s[0]] + s[1..];
      Insert(s[0], rest)
  }

  /** Sorting already sorted entries changes nothing. */
  lemma {:induction false} SortSortedIsIdentity<V>(s: seq<(string, V)>)
    requires SortedByKey(s)
    ensures SortByKey(s) == s
  {
    if s != [] {
      SortedTail(s);
      SortSortedIsIdentity(s[1..]);
      assert s == [s[0]] + s[1..];
    }
  }

  lemma MultisetTail<V>(s: seq<(string, V)>)
    requires s != []
    ensures multiset(s[1..]) == multiset(s) - multiset{s[0]}
  {
    assert s == [s[0]] + s[1..];
  }

  lemma SortedTail<V>(s: seq<(string, V)>)
    requires s != [] && SortedByKey(s)
    ensures SortedByKey(s[1..])
  {
    forall p, q | 0 <= p < q < |s| - 1
      ensures StrLe(s[1..][p].0, s[1..][q].0)
    {
      assert s[1..][p] == s[p + 1] && s[1..][q] == s[q + 1];
    }
  }

  lemma IndexOf<V>(x: (string, V), s: seq<(string, V)>) returns (k: nat)
    requires x in multiset(s)
    ensures k < |s| && s[k] == x
  {
    assert x in s;
    k :| 0 <= k < |s| && s[k] == x;
  }

  lemma FunctionalTail<V>(s: seq<(string, V)>)
    requires s != [] && KeyFunctional(s)
    ensures KeyFunctional(s[1..])
  {
    forall x | x in s[1..] ensures x in s { }
  }

  lemma FunctionalSameKey<V>(s: seq<(string, V)>, i: nat, j: nat)
    requires KeyFunctional(s) && i < |s| && j < |s| && s[i].0 == s[j].0
    ensures s[i] == s[j]
  {
    assert s[i] in s && s[j] in s;
  }

  /** In sorted entries no key is below the first. */
  lemma SortedHead<V>(s: seq<(string, V)>, i: nat)
    requires SortedByKey(s) && i < |s|
    ensures StrLe(s[0].0, s[i].0)
  {
    if i == 0 {
      StrLeReflexive(s[0].0);
    }
  }

  /** Two sorted entry lists with the same entries, one of them key-functional, are equal:
      the sorted order does not depend on where the entries came from. */
  lemma {:induction false} SortedUnique<V>(a: seq<(string, V)>, b: seq<(string, V)>)
    requires SortedByKey(a) && SortedByKey(b) && KeyFunctional(a)
    requires multiset(a) == multiset(b)
    ensures a == b
    decreases |a|
  {
    if a == [] {
      assert |multiset(b)| == 0;
    } else {
      assert |b| == |multiset(b)| == |multiset(a)| == |a|;
      var j := IndexOf(a[0], b);
      var i := IndexOf(b[0], a);
      SortedHead(a, i);
      SortedHead(b, j);
      StrLeAntisymmetric(a[0].0, b[0].0);
      FunctionalSameKey(a, i, 0);
      MultisetTail(a);
      MultisetTail(b);
      SortedTail(a);
      SortedTail(b);
      FunctionalTail(a);
      SortedUnique(a[1..], b[1..]);
      assert a == [a[0]] + a[1..] && b == [b[0]] + b[1..];
    }
  }
}
