/**
 * A plain JavaScript object as the list of its own properties in insertion
 * order, which is the order `Object.entries` reports and the order an object
 * spread (`{ ...prev, [key]: value }`) copies. Assigning to a key that is
 * already present keeps its position; assigning a new key appends it.
 */
module Props {
  import opened Wrappers

  function Keys<K, V>(es: seq<(K, V)>): (ks: seq<K>)
    ensures |ks| == |es|
    ensures forall i :: 0 <= i < |es| ==> ks[i] == es[i].0
  {
    if |es| == 0 then [] else [es[0].0] + Keys(es[1..])
  }

  /** No key is listed twice, as in every JavaScript object. */
  predicate DistinctKeys<K(==), V>(es: seq<(K, V)>) {
    forall i, j :: 0 <= i < j < |es| ==> es[i].0 != es[j].0
  }

  /** `obj[k]`, `None` standing for `undefined` (the property is absent). */
  function Lookup<K(==), V>(es: seq<(K, V)>, k: K): (r: Option<V>)
    ensures r == None <==> k !in Keys(es)
  {
    if |es| == 0 then None else if es[0].0 == k then Some(es[0].1) else Lookup(es[1..], k)
  }

  /** `obj[k] = v`, or the `[k]: v` member of an object literal after a spread. */
  function Assign<K(==), V>(es: seq<(K, V)>, k: K, v: V): seq<(K, V)> {
    if |es| == 0 then [(k, v)]
    else if es[0].0 == k then [(k, v)] + es[1..]
    else [es[0]] + Assign(es[1..], k, v)
  }

  /** After `obj[k] = v`, reading `k` gives `v` and every other key reads as before. */
  lemma {:induction false} LookupAssign<K, V>(es: seq<(K, V)>, k: K, v: V, j: K)
    ensures Lookup(Assign(es, k, v), j) == if j == k then Some(v) else Lookup(es, j)
  {
    if |es| > 0 && es[0].0 != k {
      LookupAssign(es[1..], k, v, j);
    }
  }

  /** Assignment keeps the existing keys in their order and appends only a new key. */
  lemma {:induction false} KeysAssign<K, V>(es: seq<(K, V)>, k: K, v: V)
    ensures Keys(Assign(es, k, v)) == if k in Keys(es) then Keys(es) else Keys(es) + [k]
  {
    if |es| > 0 && es[0].0 != k {
      KeysAssign(es[1..], k, v);
      assert Keys(es) == [es[0].0] + Keys(es[1..]);
    }
  }

  lemma {:induction false} AssignKeepsDistinct<K, V>(es: seq<(K, V)>, k: K, v: V)
    requires DistinctKeys(es)
    ensures DistinctKeys(Assign(es, k, v))
  {
    KeysAssign(es, k, v);
    var r := Assign(es, k, v);
    var ks := Keys(r);
    forall i, j | 0 <= i < j < |r| ensures r[i].0 != r[j].0 {
      if k in Keys(es) {
        assert ks == Keys(es) && ks[i] == es[i].0 && ks[j] == es[j].0;
      } else {
        assert ks == Keys(es) + [k];
        if j == |es| {
          assert ks[j] == k && ks[i] == es[i].0;
        } else {
          assert ks[i] == es[i].0 && ks[j] == es[j].0;
        }
      }
    }
  }

  /** A later assignment to the same key overrides an earlier one. */
  lemma {:induction false} AssignAssign<K, V>(es: seq<(K, V)>, k: K, v: V, w: V)
    ensures Assign(Assign(es, k, v), k, w) == Assign(es, k, w)
  {
    if |es| > 0 && es[0].0 != k {
      AssignAssign(es[1..], k, v, w);
    }
  }

  /** Assigning the value a key already holds changes nothing. */
  lemma {:induction false} AssignHeld<K, V>(es: seq<(K, V)>, k: K, v: V)
    requires Lookup(es, k) == Some(v)
    ensures Assign(es, k, v) == es
  {
    if es[0].0 != k {
      AssignHeld(es[1..], k, v);
    }
  }
}
