/** A JavaScript `Map<string, V>` as an association list in insertion
    order: `set` on a present key overwrites the value in place, on a
    new key appends; iteration follows the list. */
module Assoc {

  datatype Entry<V> = Entry(key: string, value: V)

  function Keys<V>(m: seq<Entry<V>>): (ks: seq<string>)
    ensures |ks| == |m|
    ensures forall i :: 0 <= i < |m| ==> ks[i] == m[i].key
  {
    seq(|m|, i requires 0 <= i < |m| => m[i].key)
  }

  /** `Array.from(m.values())`. */
  function Values<V>(m: seq<Entry<V>>): (vs: seq<V>)
    ensures |vs| == |m|
    ensures forall i :: 0 <= i < |m| ==> vs[i] == m[i].value
  {
    seq(|m|, i requires 0 <= i < |m| => m[i].value)
  }

  /** `m.get(k)` for a present key. */
  function Get<V>(m: seq<Entry<V>>, k: string): (v: V)
    requires k in Keys(m)
    ensures Entry(k, v) in m
  {
    if m[0].key == k then m[0].value else Get(m[1..], k)
  }

  function Overwrite<V>(m: seq<Entry<V>>, k: string, v: V): (r: seq<Entry<V>>)
    ensures |r| == |m|
    ensures forall i :: 0 <= i < |m| ==> r[i] == (if m[i].key == k then Entry(k, v) else m[i])
  {
    if |m| == 0 then [] else [if m[0].key == k then Entry(k, v) else m[0]] + Overwrite(m[1..], k, v)
  }

  /** `m.set(k, v)`. */
  function Put<V>(m: seq<Entry<V>>, k: string, v: V): (r: seq<Entry<V>>)
    ensures k in Keys(m) ==> Keys(r) == Keys(m)
    ensures k !in Keys(m) ==> Keys(r) == Keys(m) + [k]
    ensures Entry(k, v) in r
    ensures forall e :: e in r ==> e == Entry(k, v) || (e in m && e.key != k)
    ensures forall e :: e in m && e.key != k ==> e in r
  {
    if k in Keys(m) then
      var r := Overwrite(m, k, v);
      assert Keys(r) == Keys(m);
      var i :| 0 <= i < |m| && m[i].key == k;
      assert r[i] == Entry(k, v);
      r
    else
      m + [Entry(k, v)]
  }
}
