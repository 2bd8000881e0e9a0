/**
  A JavaScript plain object used as a dictionary with string keys: `Object.keys` lists the keys in
  the order they were first assigned, and a later assignment to a key replaces its value without
  moving it.
*/
module JsObject {

  type Key = string

  datatype Dict<V> = Dict(keys: seq<Key>, values: map<Key, V>)
  {
    /** Keys are listed once each, and exactly the keys that have a value. */
    ghost predicate Valid()
    {
      && (forall i, j :: 0 <= i < j < |keys| ==> keys[i] != keys[j])
      && (forall k :: k in values <==> k in keys)
    }

    /** Assigns `v` to key `k`: a new key goes last, an existing one keeps its place. */
    function Put(k: Key, v: V): (d: Dict<V>)
      ensures Valid() ==> d.Valid()
      ensures d.values == values[k := v]
      ensures Valid() ==> k in d.keys
      ensures |keys| <= |d.keys| <= |keys| + 1 && d.keys[..|keys|] == keys
      ensures Valid() ==> (|d.keys| == |keys| + 1 <==> k !in values)
    {
      if k in values then Dict(keys, values[k := v]) else Dict(keys + [k], values[k := v])
    }
  }

  /** The empty dictionary. */
  function Empty<V>(): (d: Dict<V>)
    ensures d.Valid() && d.keys == [] && d.values == map[]
  {
    Dict([], map[])
  }
}
