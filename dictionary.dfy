/** The part of .NET's `Dictionary<TKey, TValue>` that the webhook handler uses:
    the indexer setter (add a new key, or overwrite the value of an existing one)
    and enumeration of the values.

    The dictionary is an association list kept in enumeration order. Without
    removals the .NET implementation enumerates entries in the order their keys
    were first inserted, and overwriting a key keeps its slot; `Put` does the same. */
module Dictionary {
  import opened Wrappers

  type Dict<K, V> = seq<(K, V)>

  function Keys<K, V>(d: Dict<K, V>): seq<K>
  {
    seq(|d|, i requires 0 <= i < |d| => d[i].0)
  }

  function Values<K, V>(d: Dict<K, V>): seq<V>
  {
    seq(|d|, i requires 0 <= i < |d| => d[i].1)
  }

  /** No key occurs twice: the dictionary invariant. */
  predicate DistinctKeys<K(==), V>(d: Dict<K, V>)
  {
    forall i, j :: 0 <= i < j < |d| ==> d[i].0 != d[j].0
  }

  /** The value stored under `k`, if any. */
  function Get<K(==), V>(d: Dict<K, V>, k: K): Option<V>
  {
    if d == [] then None
    else if d[0].0 == k then Some(d[0].1)
    else Get(d[1..], k)
  }

  /** `d[k] = v`: overwrite in place when `k` is present, append otherwise. */
  function Put<K(==, !new), V(==)>(d: Dict<K, V>, k: K, v: V): (r: Dict<K, V>)
    ensures Get(r, k) == Some(v)
    ensures forall k' :: k' != k ==> Get(r, k') == Get(d, k')
    ensures Keys(r) == if k in Keys(d) then Keys(d) else Keys(d) + [k]
    ensures forall e :: e in r ==> e == (k, v) || e in d
    ensures DistinctKeys(d) ==> DistinctKeys(r)
  {
    if d == [] then [(k, v)]
    else if d[0].0 == k then
      assert k == Keys(d)[0];
      [(k, v)] + d[1..]
    else
      var rest := Put(d[1..], k, v);
      assert Keys(d) == [d[0].0] + Keys(d[1..]);
      assert Keys([d[0]] + rest) == [d[0].0] + Keys(rest);
      assert DistinctKeys(d) ==> forall j :: 0 <= j < |rest| ==> rest[j].0 != d[0].0 by {
        if DistinctKeys(d) {
          forall j | 0 <= j < |rest| ensures rest[j].0 != d[0].0 {
            assert rest[j].0 == Keys(rest)[j];
            assert d[0].0 !in Keys(d[1..]) by {
              forall i | 0 <= i < |d| - 1 ensures Keys(d[1..])[i] != d[0].0 {
                assert Keys(d[1..])[i] == d[i + 1].0;
              }
            }
          }
        }
      }
      [d[0]] + rest
  }

  /** A key has a value exactly when it is one of the keys, and the value
      found is stored beside it. */
  lemma {:induction false} GetFindsKey<K, V>(d: Dict<K, V>, k: K)
    ensures Get(d, k).Some? <==> k in Keys(d)
    ensures Get(d, k).Some? ==> (k, Get(d, k).value) in d
  {
    if d != [] {
      assert Keys(d) == [d[0].0] + Keys(d[1..]);
      GetFindsKey(d[1..], k);
    }
  }
}
