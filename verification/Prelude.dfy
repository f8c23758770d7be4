/** Types shared by the other modules. */
module Prelude {

  datatype Option<+T> = None | Some(value: T)

  /** {dpid: {address: port}} */
  type MacTable = map<int, map<string, int>>

  function Row(t: MacTable, dpid: int): map<string, int> {
    if dpid in t then t[dpid] else map[]
  }

  /** A dictionary with string keys that remembers insertion order, as the program's
      dictionaries do: iteration visits `order`, and overwriting a key keeps its place. */
  datatype RawDict<V> = RawDict(order: seq<string>, at: map<string, V>) {
    predicate Valid() {
      && (forall k :: k in order ==> k in at)
      && (forall k :: k in at ==> k in order)
      && (forall i, j :: 0 <= i < j < |order| ==> order[i] != order[j])
    }
  }

  type Dict<V> = d: RawDict<V> | d.Valid() witness RawDict([], map[])

  function EmptyDict<V>(): Dict<V> {
    RawDict([], map[])
  }

  function Put<V>(d: Dict<V>, k: string, v: V): (r: Dict<V>)
    ensures r.at == d.at[k := v]
    ensures r.order == if k in d.at then d.order else d.order + [k]
  {
    RawDict(if k in d.at then d.order else d.order + [k], d.at[k := v])
  }

  function Lookup<V>(d: Dict<V>, k: string, default: V): V {
    if k in d.at then d.at[k] else default
  }

  /** Every key keeps its place and gets the same value. */
  function Fill<V>(d: Dict<V>, v: V): (r: Dict<V>)
    ensures r.order == d.order
    ensures forall k :: k in r.at <==> k in d.at
    ensures forall k :: k in r.at ==> r.at[k] == v
  {
    RawDict(d.order, map k | k in d.at :: v)
  }
}
