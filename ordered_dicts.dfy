/** Python dictionaries as the planner uses them: a key/value mapping that also
    remembers insertion order, which `for key in d` and `list(d.keys())` follow. */
module OrderedDicts {

  datatype ODict<K(==,!new), V> = ODict(keys: seq<K>, vals: map<K, V>) {

    /** Keys are listed once each, and exactly the mapped keys are listed. */
    ghost predicate Valid() {
      && (forall i, j :: 0 <= i < j < |keys| ==> keys[i] != keys[j])
      && (forall k :: k in vals <==> k in keys)
    }

    /** `d[k] = v`: an existing key keeps its place, a new key goes last. */
    function Put(k: K, v: V): (d: ODict<K, V>)
      ensures Valid() ==> d.Valid()
      ensures d.vals == vals[k := v]
      ensures k in vals ==> d.keys == keys
      ensures k !in vals ==> d.keys == keys + [k]
    {
      if k in vals then ODict(keys, vals[k := v]) else ODict(keys + [k], vals[k := v])
    }
  }

  /** Writing the same key twice leaves what the second write alone leaves. */
  lemma PutPut<K(!new), V>(d: ODict<K, V>, k: K, v1: V, v2: V)
    ensures d.Put(k, v1).Put(k, v2) == d.Put(k, v2)
  {
  }

  /** `dict()` */
  function Empty<K(==,!new), V>(): (d: ODict<K, V>)
    ensures d.Valid() && d.keys == [] && d.vals == map[]
  {
    ODict([], map[])
  }
}
