// Counting the keys of a map that hold a value, for the announcements owed by threads.
module Counting {
  function B(b: bool): int {
    if b then 1 else 0
  }

  function Holders<K, V(==)>(m: map<K, V>, v: V): set<K> {
    set k | k in m && m[k] == v
  }

  lemma HolderAdded<K, V>(m: map<K, V>, k: K, v: V, x: V)
    requires k !in m
    ensures |Holders(m[k := v], x)| == |Holders(m, x)| + B(v == x)
  {
    var h, h' := Holders(m, x), Holders(m[k := v], x);
    if v == x {
      assert h' == h + {k};
    } else {
      assert h' == h;
    }
  }

  lemma HolderRemoved<K, V>(m: map<K, V>, k: K, x: V)
    requires k in m
    ensures |Holders(m - {k}, x)| == |Holders(m, x)| - B(m[k] == x)
  {
    assert m == (m - {k})[k := m[k]];
    HolderAdded(m - {k}, k, m[k], x);
  }
}
