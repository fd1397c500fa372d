/**
 * Small shared vocabulary: optional values, the outcome of a call that may
 * raise, and an insertion-ordered map (the iteration order of a JavaScript
 * `Map` is the order in which keys were first inserted).
 */
module Common {

  datatype Option<+T> = None | Some(value: T) {
    function GetOr(default: T): T {
      match this
      case Some(v) => v
      case None => default
    }
  }

  /** The result of a call that either returned a value or raised an exception. */
  datatype Attempt<+T> = Threw | Returned(value: T)

  /** A map whose keys are also kept in first-insertion order. */
  datatype OMap<K(==, !new), V> = OMap(order: seq<K>, entries: map<K, V>)

  ghost predicate Distinct<K(!new)>(s: seq<K>) {
    forall i, j :: 0 <= i < j < |s| ==> s[i] != s[j]
  }

  ghost predicate ValidOMap<K(!new), V>(m: OMap<K, V>) {
    Distinct(m.order) && (forall k :: k in m.order <==> k in m.entries)
  }

  function EmptyOMap<K(==, !new), V>(): (m: OMap<K, V>)
    ensures ValidOMap(m) && m.entries == map[]
  {
    OMap([], map[])
  }

  /** `Map.prototype.set`: an existing key keeps its place, a new key goes last. */
  function Put<K(==, !new), V>(m: OMap<K, V>, k: K, v: V): (r: OMap<K, V>)
    requires ValidOMap(m)
    ensures ValidOMap(r)
    ensures r.entries == m.entries[k := v]
    ensures k in m.entries ==> r.order == m.order
    ensures k !in m.entries ==> r.order == m.order + [k]
  {
    if k in m.entries then OMap(m.order, m.entries[k := v])
    else OMap(m.order + [k], m.entries[k := v])
  }

  function RemoveFrom<K(==, !new)>(s: seq<K>, k: K): (r: seq<K>)
    ensures forall x :: x in r <==> x in s && x != k
    ensures Distinct(s) ==> Distinct(r)
    ensures |r| <= |s|
  {
    if s == [] then []
    else if s[0] == k then RemoveFrom(s[1..], k)
    else
      var rest := RemoveFrom(s[1..], k);
      assert Distinct(s) ==> s[0] !in s[1..];
      [s[0]] + rest
  }

  /** `Map.prototype.delete`: the other keys keep their relative order. */
  function Remove<K(==, !new), V>(m: OMap<K, V>, k: K): (r: OMap<K, V>)
    requires ValidOMap(m)
    ensures ValidOMap(r)
    ensures r.entries == m.entries - {k}
  {
    OMap(RemoveFrom(m.order, k), m.entries - {k})
  }

  /** `Array.from(m.values())`: the values in key order. */
  function Values<K(==, !new), V>(m: OMap<K, V>): (r: seq<V>)
    requires ValidOMap(m)
    ensures |r| == |m.order|
    ensures forall i :: 0 <= i < |r| ==> r[i] == m.entries[m.order[i]]
  {
    seq(|m.order|, i requires 0 <= i < |m.order| => m.entries[m.order[i]])
  }
}
