/** The two Python dict operations the bot applies to its per-chat state. */
module PyDict {

  /** `d.get(k, default)`. */
  function Get<K, V>(d: map<K, V>, k: K, default: V): (v: V)
    ensures k in d ==> v == d[k]
    ensures k !in d ==> v == default
  {
    if k in d then d[k] else default
  }

  /**
   * `d.setdefault(k, {})[key] = value` on a dict of dicts: the entry for `k`
   * is created empty when missing, then `key` is bound to `value` in it.
   * Every other entry, and every other key of the entry for `k`, is kept.
   */
  function SetDefaultAssign<K, L, V>(d: map<K, map<L, V>>, k: K, key: L, value: V): (r: map<K, map<L, V>>)
    ensures r.Keys == d.Keys + {k}
    ensures key in r[k] && r[k][key] == value
    ensures r[k].Keys == Get(d, k, map[]).Keys + {key}
    ensures forall l :: l in r[k] && l != key ==> k in d && l in d[k] && r[k][l] == d[k][l]
    ensures forall c :: c in d && c != k ==> r[c] == d[c]
  {
    d[k := Get(d, k, map[])[key := value]]
  }

  /** Assigning the same key of the same entry twice is the same as assigning it once. */
  lemma SetDefaultAssignIdempotent<K, L, V>(d: map<K, map<L, V>>, k: K, key: L, value: V)
    ensures SetDefaultAssign(SetDefaultAssign(d, k, key, value), k, key, value) == SetDefaultAssign(d, k, key, value)
  {
    var once := SetDefaultAssign(d, k, key, value);
    assert once[k][key := value] == once[k];
  }

  /** Assignments to two different keys of one entry commute. */
  lemma SetDefaultAssignCommutes<K, L, V>(d: map<K, map<L, V>>, k: K, key1: L, v1: V, key2: L, v2: V)
    requires key1 != key2
    ensures SetDefaultAssign(SetDefaultAssign(d, k, key1, v1), k, key2, v2)
         == SetDefaultAssign(SetDefaultAssign(d, k, key2, v2), k, key1, v1)
  {
    var e := Get(d, k, map[]);
    assert e[key1 := v1][key2 := v2] == e[key2 := v2][key1 := v1];
  }
}
