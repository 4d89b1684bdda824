/** Facts about tables, that is, finite maps from ids to rows. */
module Maps {
  lemma InsertIsUnion<K, V>(m: map<K, V>, k: K, v: V)
    ensures m + map[k := v] == m[k := v]
  {}

  lemma InsertRight<K, V>(m: map<K, V>, n: map<K, V>, k: K, v: V)
    ensures m + n[k := v] == (m + n)[k := v]
  {}

  lemma UnionEmpty<K, V>(m: map<K, V>)
    ensures m + map[] == m
  {}

  lemma UnionSwap<K, V>(m: map<K, V>, n: map<K, V>, o: map<K, V>)
    requires n.Keys !! o.Keys
    ensures (m + n) + o == (m + o) + n
  {}

  lemma ValuesUnion<K, V>(m: map<K, V>, n: map<K, V>)
    requires m.Keys !! n.Keys
    ensures (m + n).Values == m.Values + n.Values
  {
    forall v | v in m.Values + n.Values ensures v in (m + n).Values {
      var k :| (k in m && m[k] == v) || (k in n && n[k] == v);
      assert k in m + n && (m + n)[k] == v;
    }
  }
}
