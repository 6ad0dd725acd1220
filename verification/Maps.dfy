/** What overlaying one map on another amounts to in the cases the tables meet. */
module Maps {
  lemma PlusNothing<K, V>(m: map<K, V>)
    ensures m + map[] == m
  {
  }

  lemma PlusOne<K, V>(m: map<K, V>, more: map<K, V>, k: K)
    requires more.Keys == {k}
    ensures m + more == m[k := more[k]]
  {
  }
}
