/** Optional values, as the persistence records use for nullable columns, and a fact about maps. */
module Wrappers {

  datatype Option<+T> = None | Some(value: T)

  lemma UpdatesEqualExactly<K, V>(m: map<K, V>, n: map<K, V>, key: K, a: V, b: V)
    requires key !in m && key !in n
    ensures m[key := a] == n[key := b] <==> m == n && a == b
  {
    if m[key := a] == n[key := b] {
      assert a == m[key := a][key] == n[key := b][key] == b;
      assert m == m[key := a] - {key};
      assert n == n[key := b] - {key};
    }
  }

}
