/** A JavaScript `Map` as the scan uses it: a list of key/value entries in
    insertion order, where `set` on a new key appends and `set` on a
    present key replaces the value in place, keeping the key's position. */
module OrderedMaps {

  datatype Option<T> = None | Some(value: T)

  type OrderedMap<K, V> = seq<(K, V)>

  /** The keys in iteration (insertion) order. */
  function Keys<K, V>(m: OrderedMap<K, V>): (r: seq<K>)
    ensures |r| == |m|
  {
    if m == [] then [] else [m[0].0] + Keys(m[1..])
  }

  /** An entry added at the end puts its key last. */
  lemma {:induction false} KeysAppend<K, V>(m: OrderedMap<K, V>, x: (K, V))
    ensures Keys(m + [x]) == Keys(m) + [x.0]
  {
    if m == [] {
      assert [x][1..] == [];
    } else {
      assert (m + [x])[1..] == m[1..] + [x];
      KeysAppend(m[1..], x);
    }
  }

  /** `Map.prototype.get`: the value stored under `k`, if any. */
  function Get<K(==), V>(m: OrderedMap<K, V>, k: K): (r: Option<V>)
    ensures r.Some? <==> k in Keys(m)
  {
    if m == [] then None
    else if m[0].0 == k then Some(m[0].1)
    else Get(m[1..], k)
  }

  /** `Map.prototype.set`. */
  function Put<K(==,!new), V>(m: OrderedMap<K, V>, k: K, v: V): (r: OrderedMap<K, V>)
    ensures Get(r, k) == Some(v)
    ensures forall j :: j != k ==> Get(r, j) == Get(m, j)
    ensures k !in Keys(m) ==> r == m + [(k, v)]
    ensures k in Keys(m) ==> Keys(r) == Keys(m)
  {
    if m == [] then [(k, v)]
    else
      assert m == [m[0]] + m[1..];
      var rest := if m[0].0 == k then m[1..] else Put(m[1..], k, v);
      var r := [if m[0].0 == k then (k, v) else m[0]] + rest;
      ConsProperties(r[0], rest);
      ConsProperties(m[0], m[1..]);
      r
  }

  /** How `Keys` and `Get` see an entry placed in front of others. */
  lemma ConsProperties<K, V>(x: (K, V), m: OrderedMap<K, V>)
    ensures Keys([x] + m) == [x.0] + Keys(m)
    ensures forall j :: Get([x] + m, j) == if x.0 == j then Some(x.1) else Get(m, j)
  {
    assert ([x] + m)[1..] == m;
  }

  /** Every key of a map keyed by list positions is a position of a list of
      length `n`. */
  ghost predicate KeysBelow<V>(m: OrderedMap<nat, V>, n: nat)
  {
    forall e :: 0 <= e < |m| ==> m[e].0 < n
  }
}
