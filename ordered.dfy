// A JavaScript `Map` with string keys (and a plain object used as a
// dictionary): a value per key, plus the order in which keys were first set,
// which is the order `for ... of` and `Object.keys` visit them.

module Ordered {

  datatype OMap<V> = OMap(keys: seq<string>, entries: map<string, V>)

  /** Each key is listed once, and exactly the keys with a value are listed. */
  ghost predicate Valid<V>(m: OMap<V>) {
    && (forall i, j :: 0 <= i < j < |m.keys| ==> m.keys[i] != m.keys[j])
    && (forall k :: k in m.entries <==> k in m.keys)
  }

  function Empty<V>(): (r: OMap<V>)
    ensures Valid(r) && r.keys == [] && r.entries == map[]
  {
    OMap([], map[])
  }

  /** `m.set(k, v)`: a new key goes to the end, a key already present keeps
      its place and only its value changes. */
  function Put<V>(m: OMap<V>, k: string, v: V): OMap<V> {
    OMap(if k in m.entries then m.keys else m.keys + [k], m.entries[k := v])
  }

  /** `Put` keeps the map well formed, stores `v` under `k`, leaves every
      other key's value alone and adds `k` to the key order only when new. */
  lemma PutValid<V>(m: OMap<V>, k: string, v: V)
    requires Valid(m)
    ensures Valid(Put(m, k, v))
    ensures k in Put(m, k, v).entries && Put(m, k, v).entries[k] == v
    ensures forall x :: x != k ==> (x in Put(m, k, v).entries <==> x in m.entries)
    ensures forall x :: x != k && x in m.entries ==> Put(m, k, v).entries[x] == m.entries[x]
    ensures Size(Put(m, k, v)) == if k in m.entries then Size(m) else Size(m) + 1
  {
  }

  /** `m.size` */
  function Size<V>(m: OMap<V>): nat {
    |m.keys|
  }
}
