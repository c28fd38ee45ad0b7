/** The Ruby values a job may be enqueued with, and what `to_json` makes of them.
    The deduplication key is JSON text, so two values are the same key exactly when they
    serialise to the same JSON tree; `JsonNormal` says which values that identifies. */
module Values {

  /** A Ruby Hash here has keys of one kind: all Symbols (`bar: 1`) or all Strings. */
  datatype KeyKind = SymbolKeys | StringKeys

  datatype Value =
    | Nil
    | Bool(b: bool)
    | Int(i: int)
    | Str(s: string)
    | Sym(name: string)
    | ClassRef(className: string)
    | Array(items: seq<Value>)
    | Hash(keys: KeyKind, entries: seq<(string, Value)>)

  /** A JSON document as a tree. Generating text from a tree is deterministic and
      injective, so equal JSON text is equal trees. */
  datatype Json =
    | JNull
    | JBool(b: bool)
    | JNumber(n: int)
    | JString(s: string)
    | JArray(items: seq<Json>)
    | JObject(members: seq<(string, Json)>)

  /** `value.to_json`: Symbols become strings, hash keys become strings (`to_s`), member order
      is kept, and a Class that is not converted beforehand becomes `{}`. */
  function ToJson(v: Value): (r: Json)
    ensures v.Sym? ==> r == JString(v.name)
    ensures v.ClassRef? ==> r == JObject([])
    ensures v.Array? ==> r.JArray? && |r.items| == |v.items|
    ensures v.Hash? ==> r.JObject? && |r.members| == |v.entries| &&
                        forall k :: 0 <= k < |v.entries| ==> r.members[k].0 == v.entries[k].0
  {
    match v
    case Nil => JNull
    case Bool(b) => JBool(b)
    case Int(i) => JNumber(i)
    case Str(s) => JString(s)
    case Sym(name) => JString(name)
    case ClassRef(_) => JObject([])
    case Array(items) => JArray(seq(|items|, k requires 0 <= k < |items| => ToJson(items[k])))
    case Hash(_, entries) =>
      JObject(seq(|entries|, k requires 0 <= k < |entries| => (entries[k].0, ToJson(entries[k].1))))
  }

  /** The representative `to_json` cannot tell apart from `v`: every Symbol as the String of its
      name, every Hash with String keys, every Class as an empty Hash. */
  function JsonNormal(v: Value): (r: Value)
    ensures !r.Sym? && !r.ClassRef?
    ensures r.Hash? ==> r.keys == StringKeys
  {
    match v
    case Sym(name) => Str(name)
    case ClassRef(_) => Hash(StringKeys, [])
    case Array(items) => Array(seq(|items|, k requires 0 <= k < |items| => JsonNormal(items[k])))
    case Hash(_, entries) =>
      Hash(StringKeys, seq(|entries|, k requires 0 <= k < |entries| => (entries[k].0, JsonNormal(entries[k].1))))
    case _ => v
  }

  /** Normalising never changes the JSON. */
  lemma {:induction false} ToJsonOfNormal(v: Value)
    ensures ToJson(JsonNormal(v)) == ToJson(v)
  {
    match v
    case Array(items) =>
      forall k | 0 <= k < |items| {
        ToJsonOfNormal(items[k]);
      }
    case Hash(_, entries) =>
      forall k | 0 <= k < |entries| {
        ToJsonOfNormal(entries[k].1);
      }
    case _ =>
  }

  /** Values with the same JSON have the same normal form. */
  lemma {:induction false} SameJsonSameNormal(a: Value, b: Value)
    requires ToJson(a) == ToJson(b)
    ensures JsonNormal(a) == JsonNormal(b)
  {
    match a
    case Array(xs) =>
      var ys := b.items;
      assert |xs| == |ys| by {
        assert |ToJson(a).items| == |ToJson(b).items|;
      }
      forall k | 0 <= k < |xs|
        ensures JsonNormal(xs[k]) == JsonNormal(ys[k])
      {
        assert ToJson(a).items[k] == ToJson(b).items[k];
        SameJsonSameNormal(xs[k], ys[k]);
      }
    case Hash(_, es) =>
      if b.Hash? {
        var fs := b.entries;
        assert |es| == |fs| by {
          assert |ToJson(a).members| == |ToJson(b).members|;
        }
        forall k | 0 <= k < |es|
          ensures es[k].0 == fs[k].0 && JsonNormal(es[k].1) == JsonNormal(fs[k].1)
        {
          assert ToJson(a).members[k] == ToJson(b).members[k];
          SameJsonSameNormal(es[k].1, fs[k].1);
        }
      } else {
        assert b.ClassRef?;
        assert |ToJson(a).members| == 0;
      }
    case ClassRef(_) =>
      if b.Hash? {
        assert |ToJson(b).members| == 0;
      }
    case _ =>
  }

  /** Two values serialise to the same JSON exactly when their normal forms are equal. */
  lemma SameJsonIffSameNormal(a: Value, b: Value)
    ensures ToJson(a) == ToJson(b) <==> JsonNormal(a) == JsonNormal(b)
  {
    ToJsonOfNormal(a);
    ToJsonOfNormal(b);
    if ToJson(a) == ToJson(b) {
      SameJsonSameNormal(a, b);
    }
  }
}
