/**
 * A Python `dict`. Python dicts remember insertion order: assigning to a
 * key that is present replaces its value where it stands; assigning to a
 * new key puts it after all the others.
 */
module PyDict {
  import opened Wrappers

  /** `order` lists the keys as they were first inserted; `entries` holds the values. */
  datatype Dict<K(!new), V> = Dict(order: seq<K>, entries: map<K, V>)
  {
    /** Every stored key is listed exactly once. */
    ghost predicate Valid()
    {
      && (forall k :: k in entries <==> k in order)
      && (forall i, j :: 0 <= i < j < |order| ==> order[i] != order[j])
    }
  }

  /** `{}`. */
  function Empty<K(!new), V>(): (d: Dict<K, V>)
    ensures d.Valid() && d.order == []
    ensures forall k :: Get(d, k) == None
  {
    Dict([], map[])
  }

  /** `d.get(k)`: the value stored under `k`, or None when `k` is absent. */
  function Get<K(!new), V>(d: Dict<K, V>, k: K): Option<V>
  {
    if k in d.entries then Some(d.entries[k]) else None
  }

  /** `d[k] = v`: a new key goes last, a present key keeps its place. */
  function Set<K(!new), V>(d: Dict<K, V>, k: K, v: V): (r: Dict<K, V>)
    ensures r.order == if Get(d, k).Some? then d.order else d.order + [k]
    ensures Get(r, k) == Some(v)
    ensures forall k' :: k' != k ==> Get(r, k') == Get(d, k')
  {
    if k in d.entries then Dict(d.order, d.entries[k := v])
    else Dict(d.order + [k], d.entries[k := v])
  }

  /** Assignment keeps every stored key listed exactly once. */
  lemma SetKeepsValid<K(!new), V>(d: Dict<K, V>, k: K, v: V)
    requires d.Valid()
    ensures Set(d, k, v).Valid()
  {
  }
}
