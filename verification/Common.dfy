// Vocabulary shared by the models: optional values and finite-map lookup.
module Common {

  datatype Option<+T> = None | Some(value: T)

  function Lookup<K, V>(m: map<K, V>, k: K): Option<V> {
    if k in m then Some(m[k]) else None
  }

  // A map after a batch of writes and removals made by somebody else.
  function Overwrite<K(!new), V>(m: map<K, V>, changes: map<K, Option<V>>): (r: map<K, V>)
    ensures forall k :: Lookup(r, k) == if k in changes then changes[k] else Lookup(m, k)
  {
    map k | k in m.Keys + changes.Keys && (k in changes ==> changes[k].Some?)
      :: if k in changes then changes[k].value else m[k]
  }

  // Maps that answer every lookup alike are the same map.
  lemma SameLookups<K(!new), V(!new)>(a: map<K, V>, b: map<K, V>)
    requires forall k :: Lookup(a, k) == Lookup(b, k)
    ensures a == b
  {
    forall k ensures k in a <==> k in b {
      assert Lookup(a, k) == Lookup(b, k);
    }
    forall k | k in a ensures a[k] == b[k] {
      assert Lookup(a, k) == Lookup(b, k);
    }
  }
}
