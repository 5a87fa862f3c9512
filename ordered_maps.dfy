/**
 * Insertion-ordered maps, as JavaScript's `Map` and Python's `dict` behave:
 * a key keeps the position of its first insertion, and a later `set` with
 * the same key replaces the value in place.
 */
module OrderedMaps {
  import opened Seqs

  datatype OrderedMap<K, V> = OrderedMap(keys: seq<K>, values: map<K, V>)

  ghost predicate Valid<K(!new), V>(m: OrderedMap<K, V>) {
    && NoDup(m.keys)
    && (forall k :: k in m.values <==> k in m.keys)
  }

  function Empty<K, V>(): OrderedMap<K, V> { OrderedMap([], map[]) }

  /** `m.set(k, v)` */
  function Put<K(==), V>(m: OrderedMap<K, V>, k: K, v: V): OrderedMap<K, V> {
    OrderedMap(if k in m.values then m.keys else m.keys + [k], m.values[k := v])
  }

  /** `Array.from(m.values())`: the values in key order. */
  function Values<K(!new), V>(m: OrderedMap<K, V>): (r: seq<V>)
    requires Valid(m)
    ensures |r| == |m.keys|
    ensures forall i :: 0 <= i < |m.keys| ==> r[i] == m.values[m.keys[i]]
  {
    seq(|m.keys|, i requires 0 <= i < |m.keys| => m.values[m.keys[i]])
  }

  /** The keys of a list of pairs, in order. */
  function KeysOf<K, V>(pairs: seq<(K, V)>): (r: seq<K>)
    ensures |r| == |pairs|
    ensures forall i :: 0 <= i < |pairs| ==> r[i] == pairs[i].0
  {
    seq(|pairs|, i requires 0 <= i < |pairs| => pairs[i].0)
  }

  /** The value paired with `k` the last time it occurs. */
  function LastValue<K(==), V>(pairs: seq<(K, V)>, k: K): V
    requires k in KeysOf(pairs)
  {
    var last := pairs[|pairs| - 1];
    if last.0 == k then last.1
    else
      assert KeysOf(pairs) == KeysOf(pairs[..|pairs| - 1]) + [last.0];
      LastValue(pairs[..|pairs| - 1], k)
  }

  /** The map filled by `set` with each pair in turn. */
  function FromPairs<K(==), V>(pairs: seq<(K, V)>): OrderedMap<K, V> {
    if pairs == [] then Empty()
    else Put(FromPairs(pairs[..|pairs| - 1]), pairs[|pairs| - 1].0, pairs[|pairs| - 1].1)
  }

  /**
   * Filling a map keeps one entry per distinct key, in order of first
   * occurrence, holding the value of the key's last occurrence.
   */
  lemma {:induction false} FromPairsSpec<K(!new), V>(pairs: seq<(K, V)>)
    ensures Valid(FromPairs(pairs))
    ensures FromPairs(pairs).keys == Unique(KeysOf(pairs))
    ensures forall k :: k in FromPairs(pairs).values <==> k in KeysOf(pairs)
    ensures forall k :: k in FromPairs(pairs).values ==> FromPairs(pairs).values[k] == LastValue(pairs, k)
  {
    if pairs != [] {
      var prefix, last := pairs[..|pairs| - 1], pairs[|pairs| - 1];
      FromPairsSpec(prefix);
      var ks, ks0 := KeysOf(pairs), KeysOf(prefix);
      assert ks == ks0 + [last.0];
      assert ks[..|ks| - 1] == ks0 && ks[|ks| - 1] == last.0;
      var m0 := FromPairs(prefix);
      var m := FromPairs(pairs);
      assert m == Put(m0, last.0, last.1);
      assert last.0 in m0.values <==> last.0 in ks0;
      assert m.keys == Unique(ks);
      forall k
        ensures k in m.values <==> k in ks
      {
        assert k in ks <==> k in ks0 || k == last.0;
      }
      forall k | k in m.values
        ensures m.values[k] == LastValue(pairs, k)
      {
        if k != last.0 {
          assert k in ks0;
        }
      }
    }
  }

  /**
   * `Array.from(m.values())` of the map filled with `pairs`: one value per
   * distinct key, in order of the key's first occurrence, and that value is
   * the one of the key's last occurrence.
   */
  function ValuesOf<K(==, !new), V>(pairs: seq<(K, V)>): (r: seq<V>)
    ensures |r| == |Unique(KeysOf(pairs))|
    ensures forall i :: 0 <= i < |r| ==> r[i] == LastValue(pairs, Unique(KeysOf(pairs))[i])
  {
    FromPairsSpec(pairs);
    Values(FromPairs(pairs))
  }
}
