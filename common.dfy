/** Shared vocabulary of the services: optional values, handler outcomes, and the
    insertion-ordered dictionaries that the Python services keep in memory. */
module Common {

  datatype Option<T> = None | Some(value: T)

  /** What a request handler produces: the value it returns, or the HTTP status code
      and `detail` text of the error response it raises. */
  datatype Result<T> = Ok(value: T) | Err(status: int, detail: string)

  predicate Distinct<T(==)>(s: seq<T>) {
    forall i, j :: 0 <= i < j < |s| ==> s[i] != s[j]
  }

  lemma AppendAssociative<T>(a: seq<T>, b: seq<T>, c: seq<T>)
    ensures (a + b) + c == a + (b + c)
  {
  }

  /** A Python dict keyed by strings: the map holds the entries, `keys` the order in
      which the keys were first inserted (the order `dict.values()` iterates in). */
  predicate OrderedDict<V>(keys: seq<string>, m: map<string, V>) {
    Distinct(keys) && (forall k :: k in m ==> k in keys) && (forall k :: k in keys ==> k in m)
  }

  /** `list(d.values())`: the values in key-insertion order. */
  function Values<V>(keys: seq<string>, m: map<string, V>): (vs: seq<V>)
    requires forall k :: k in keys ==> k in m
    ensures |vs| == |keys|
    ensures forall i :: 0 <= i < |keys| ==> vs[i] == m[keys[i]]
  {
    if keys == [] then [] else [m[keys[0]]] + Values(keys[1..], m)
  }

  /** The values listed are exactly the values stored. */
  lemma ValuesAreStored<V>(keys: seq<string>, m: map<string, V>)
    requires OrderedDict(keys, m)
    ensures forall v :: v in Values(keys, m) <==> v in m.Values
  {
    var vs := Values(keys, m);
    forall v | v in m.Values ensures v in vs {
      var k :| k in m && m[k] == v;
      var i :| 0 <= i < |keys| && keys[i] == k;
      assert vs[i] == v;
    }
  }

  /** Inserting a fresh key appends its value at the end of the iteration order. */
  lemma ValuesInsert<V>(keys: seq<string>, m: map<string, V>, k: string, v: V)
    requires OrderedDict(keys, m) && k !in m
    ensures OrderedDict(keys + [k], m[k := v])
    ensures Values(keys + [k], m[k := v]) == Values(keys, m) + [v]
  {
    var keys', m' := keys + [k], m[k := v];
    assert Distinct(keys') by {
      forall i, j | 0 <= i < j < |keys'| ensures keys'[i] != keys'[j] {
        if j < |keys| { assert keys'[i] == keys[i] && keys'[j] == keys[j]; }
        else { assert keys'[i] == keys[i] && keys[i] in m; }
      }
    }
    var lhs, rhs := Values(keys', m'), Values(keys, m) + [v];
    forall i | 0 <= i < |keys'| ensures lhs[i] == rhs[i] {
      if i < |keys| { assert keys'[i] == keys[i] && keys[i] in m; }
    }
  }
}
