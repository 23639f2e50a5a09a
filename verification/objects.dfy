/**
 * Plain JavaScript objects used as string-keyed dictionaries: the loading
 * map, the error map and the middleware's guard.  Only own enumerable
 * properties are modelled; `Object.values` visits them in insertion order.
 */
module Objects {
  import opened Wrappers

  /** The own properties of an object: the keys in enumeration order and their values. */
  datatype Entries<V> = Entries(order: seq<string>, slots: map<string, V>)

  /** Keys are listed once each, and exactly the keys that carry a value are listed. */
  ghost predicate WellFormed<V>(e: Entries<V>) {
    && (forall i, j :: 0 <= i < j < |e.order| ==> e.order[i] != e.order[j])
    && (forall k :: k in e.slots <==> k in e.order)
  }

  type Obj<V> = e: Entries<V> | WellFormed(e) witness Entries([], map[])

  /** The object literal `{}`. */
  function Empty<V>(): (r: Obj<V>)
    ensures r.order == []
    ensures forall k :: Lookup(r, k) == None
  {
    Entries([], map[])
  }

  /** `o[k]` restricted to own properties; `None` stands for `undefined`. */
  function Lookup<V>(o: Obj<V>, k: string): Option<V> {
    if k in o.slots then Some(o.slots[k]) else None
  }

  /**
   * The copy-on-write update `{...o, [k]: v}`: a fresh object in which `k`
   * holds `v` and every other key is as in `o`.  An existing key keeps its
   * place in the enumeration order; a new key is enumerated last.
   */
  function Put<V>(o: Obj<V>, k: string, v: V): (r: Obj<V>)
    ensures Lookup(r, k) == Some(v)
    ensures forall k' :: k' != k ==> Lookup(r, k') == Lookup(o, k')
    ensures k in o.slots ==> r.order == o.order
    ensures k !in o.slots ==> r.order == o.order + [k]
  {
    var order := if k in o.slots then o.order else o.order + [k];
    var e := Entries(order, o.slots[k := v]);
    assert WellFormed(e);
    e
  }

  /** `Object.values(o)`: the values of the own properties, in enumeration order. */
  function Values<V>(o: Obj<V>): (r: seq<V>)
    ensures |r| == |o.order|
    ensures forall i :: 0 <= i < |r| ==> r[i] == o.slots[o.order[i]]
  {
    seq(|o.order|, i requires 0 <= i < |o.order| => o.slots[o.order[i]])
  }

  /** Every own property's value is visited by `Object.values`, and nothing else is. */
  lemma ValuesAreTheSlots<V>(o: Obj<V>, k: string)
    ensures k in o.slots <==> exists i :: 0 <= i < |o.order| && o.order[i] == k
    ensures k in o.slots ==> o.slots[k] in Values(o)
  {
    if k in o.slots {
      var i :| 0 <= i < |o.order| && o.order[i] == k;
      assert Values(o)[i] == o.slots[k];
    }
  }
}
