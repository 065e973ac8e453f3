/** Python dictionaries with string keys: a map together with the order in which keys were inserted. */
module Dictionaries {

  datatype Dict<V> = Dict(order: seq<string>, at: map<string, V>)

  ghost predicate IsDict<V>(d: Dict<V>) {
    && (forall i, j :: 0 <= i < j < |d.order| ==> d.order[i] != d.order[j])
    && (forall k :: k in d.order <==> k in d.at)
  }

  /** `d[k] = v` */
  function Put<V>(d: Dict<V>, k: string, v: V): (r: Dict<V>)
    ensures IsDict(d) ==> IsDict(r)
    ensures r.at == d.at[k := v]
  {
    Dict(if k in d.at then d.order else d.order + [k], d.at[k := v])
  }

  /** The sum of `f` over the values, taken in insertion order. */
  ghost function SumBy<V>(d: Dict<V>, n: nat, f: V -> real): real
    requires IsDict(d) && n <= |d.order|
  {
    if n == 0 then 0.0 else
      assert d.order[n - 1] in d.order;
      SumBy(d, n - 1, f) + f(d.at[d.order[n - 1]])
  }

  ghost function Sum<V>(d: Dict<V>, f: V -> real): real
    requires IsDict(d)
  {
    SumBy(d, |d.order|, f)
  }

  /** Assigning to a key changes the sum by the difference. */
  lemma {:induction false} PutSum<V>(d: Dict<V>, k: string, v: V, f: V -> real)
    requires IsDict(d)
    ensures IsDict(Put(d, k, v))
    ensures Sum(Put(d, k, v), f) == Sum(d, f) + f(v) - (if k in d.at then f(d.at[k]) else 0.0)
  {
    if k in d.at {
      var p :| 0 <= p < |d.order| && d.order[p] == k;
      PutSumBy(d, k, v, p, |d.order|, f);
    } else {
      SumByIgnoresNewKey(d, k, v, |d.order|, f);
    }
  }

  lemma {:induction false} PutSumBy<V>(d: Dict<V>, k: string, v: V, p: nat, n: nat, f: V -> real)
    requires IsDict(d) && p < |d.order| && d.order[p] == k && k in d.at && n <= |d.order|
    ensures SumBy(Put(d, k, v), n, f) == SumBy(d, n, f) + (if p < n then f(v) - f(d.at[k]) else 0.0)
  {
    if n > 0 {
      assert d.order[n - 1] in d.order;
      PutSumBy(d, k, v, p, n - 1, f);
    }
  }

  lemma {:induction false} SumByIgnoresNewKey<V>(d: Dict<V>, k: string, v: V, n: nat, f: V -> real)
    requires IsDict(d) && k !in d.at && n <= |d.order|
    ensures SumBy(Put(d, k, v), n, f) == SumBy(d, n, f)
  {
    if n > 0 {
      assert d.order[n - 1] in d.order;
      SumByIgnoresNewKey(d, k, v, n - 1, f);
    }
  }
}
