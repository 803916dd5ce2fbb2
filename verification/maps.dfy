/**
 JavaScript's `Map` keyed by strings: a list of entries in insertion order.
 `m.set` replaces the value of an existing entry in place and appends a new
 key at the end, so `Array.from(m.keys())` lists the keys in the order they
 were first set.
 */
module Maps {
  import opened Wrappers

  datatype OrderedMap<V> = OrderedMap(entries: seq<(string, V)>)

  /** The keys of `entries`, in order. */
  function KeysOf<V>(entries: seq<(string, V)>): (ks: seq<string>)
    ensures |ks| == |entries|
    decreases |entries|
  {
    if |entries| == 0 then [] else [entries[0].0] + KeysOf(entries[1..])
  }

  /** The i-th key is the key of the i-th entry. */
  lemma {:induction false} KeysOfLists<V>(entries: seq<(string, V)>)
    ensures forall i | 0 <= i < |entries| :: KeysOf(entries)[i] == entries[i].0
    decreases |entries|
  {
    if |entries| > 0 {
      KeysOfLists(entries[1..]);
      forall i | 0 < i < |entries| ensures KeysOf(entries)[i] == entries[i].0 {
        assert entries[1..][i - 1] == entries[i];
      }
    }
  }

  /** The value of the first entry for `k`. */
  function Find<V>(entries: seq<(string, V)>, k: string): (r: Option<V>)
    ensures r.Some? <==> k in KeysOf(entries)
    decreases |entries|
  {
    if |entries| == 0 then None
    else if entries[0].0 == k then Some(entries[0].1)
    else Find(entries[1..], k)
  }

  /** No key is listed twice. */
  predicate Distinct(keys: seq<string>)
    decreases |keys|
  {
    |keys| == 0 || (keys[0] !in keys[1..] && Distinct(keys[1..]))
  }

  /** `Distinct` says that any two positions hold different keys. */
  lemma {:induction false} DistinctMeansOnce(keys: seq<string>)
    ensures Distinct(keys) <==> forall i, j | 0 <= i < j < |keys| :: keys[i] != keys[j]
    decreases |keys|
  {
    if |keys| > 0 {
      var rest := keys[1..];
      DistinctMeansOnce(rest);
      assert forall i | 0 < i < |keys| :: keys[i] == rest[i - 1];
      if Distinct(keys) {
        forall i, j | 0 <= i < j < |keys| ensures keys[i] != keys[j] {
          if i > 0 {
            assert rest[i - 1] != rest[j - 1];
          }
        }
      }
    }
  }

  /** `m.set(k, v)` on the entry list: replace in place, or append. */
  function Put<V>(entries: seq<(string, V)>, k: string, v: V): (r: seq<(string, V)>)
    ensures Find(r, k) == Some(v)
    ensures forall k' | k' != k :: Find(r, k') == Find(entries, k')
    ensures k in KeysOf(entries) ==> KeysOf(r) == KeysOf(entries)
    ensures k !in KeysOf(entries) ==> KeysOf(r) == KeysOf(entries) + [k]
    ensures Distinct(KeysOf(entries)) ==> Distinct(KeysOf(r))
    decreases |entries|
  {
    if |entries| == 0 then [(k, v)]
    else if entries[0].0 == k then
      var r := [(k, v)] + entries[1..];
      assert r[1..] == entries[1..];
      r
    else
      var rest := Put(entries[1..], k, v);
      var r := [entries[0]] + rest;
      assert r[1..] == rest;
      r
  }

  /** `new Map()` */
  function Empty<V>(): (m: OrderedMap<V>)
    ensures Keys(m) == []
  {
    OrderedMap([])
  }

  /** `Array.from(m.keys())` */
  function Keys<V>(m: OrderedMap<V>): seq<string>
  {
    KeysOf(m.entries)
  }

  /** `m.has(k)` */
  predicate Has<V>(m: OrderedMap<V>, k: string)
  {
    k in Keys(m)
  }

  /** `m.get(k)`, with `undefined` as `None`. */
  function Get<V>(m: OrderedMap<V>, k: string): (r: Option<V>)
    ensures r.Some? <==> Has(m, k)
  {
    Find(m.entries, k)
  }

  /**
   `m.set(k, v)`: the new binding replaces any old one for `k`, every other
   binding stays, an existing key keeps its place, a new key goes last, and
   no key ever appears twice.
   */
  function Set<V>(m: OrderedMap<V>, k: string, v: V): (r: OrderedMap<V>)
    ensures Get(r, k) == Some(v)
    ensures forall k' | k' != k :: Get(r, k') == Get(m, k')
    ensures Has(m, k) ==> Keys(r) == Keys(m)
    ensures !Has(m, k) ==> Keys(r) == Keys(m) + [k]
    ensures Distinct(Keys(m)) ==> Distinct(Keys(r))
  {
    OrderedMap(Put(m.entries, k, v))
  }

  /** Setting a key twice leaves the same map as setting it once to the later value. */
  lemma SetOverrides<V>(m: OrderedMap<V>, k: string, v1: V, v2: V)
    ensures Set(Set(m, k, v1), k, v2) == Set(m, k, v2)
  {
    PutOverrides(m.entries, k, v1, v2);
  }

  lemma {:induction false} PutOverrides<V>(entries: seq<(string, V)>, k: string, v1: V, v2: V)
    ensures Put(Put(entries, k, v1), k, v2) == Put(entries, k, v2)
    decreases |entries|
  {
    if |entries| > 0 && entries[0].0 != k {
      PutOverrides(entries[1..], k, v1, v2);
      var once := Put(entries, k, v1);
      assert once[0] == entries[0] && once[1..] == Put(entries[1..], k, v1);
    }
  }
}
