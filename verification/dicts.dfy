/**
 * Python's `dict` as an insertion-ordered association list.
 *
 * Iteration over a Python dict follows insertion order; assigning to a key
 * that is already present replaces its value in place and keeps its
 * position, while a new key is appended at the end.
 */
module Dicts {
  import opened Wrappers

  datatype Entry<K, V> = Entry(key: K, value: V)

  type Dict<K, V> = seq<Entry<K, V>>

  /** The keys in iteration order. */
  function Keys<K, V>(d: Dict<K, V>): (ks: seq<K>)
    ensures |ks| == |d|
    ensures forall i :: 0 <= i < |d| ==> ks[i] == d[i].key
  {
    if |d| == 0 then [] else [d[0].key] + Keys(d[1..])
  }

  /** No element occurs twice. */
  predicate Distinct<T(==)>(s: seq<T>) {
    forall i, j :: 0 <= i < j < |s| ==> s[i] != s[j]
  }

  /** `d.get(k)`: the value stored under `k`, if any. */
  function Get<K(==), V>(d: Dict<K, V>, k: K): (r: Option<V>)
  {
    if |d| == 0 then None
    else if d[0].key == k then Some(d[0].value)
    else
      Get(d[1..], k)
  }

  /** `d[k] = v`. */
  function Put<K(==,!new), V>(d: Dict<K, V>, k: K, v: V): (r: Dict<K, V>)
    ensures Keys(r) == if k in Keys(d) then Keys(d) else Keys(d) + [k]
    ensures Get(r, k) == Some(v)
    ensures forall k' :: k' != k ==> Get(r, k') == Get(d, k')
  {
    if |d| == 0 then [Entry(k, v)]
    else if d[0].key == k then [Entry(k, v)] + d[1..]
    else
      var r := [d[0]] + Put(d[1..], k, v);
      assert r[1..] == Put(d[1..], k, v);
      r
  }

  /** `d[k] = d.get(k, 0) + a`: the accumulation step of a group-by-sum. */
  function Accumulate<K(==,!new)>(d: Dict<K, real>, k: K, a: real): (r: Dict<K, real>)
  {
    Put(d, k, Get(d, k).GetOr(0.0) + a)
  }

  /** `sum(d.values())`. */
  function SumValues<K>(d: Dict<K, real>): real {
    if |d| == 0 then 0.0 else d[0].value + SumValues(d[1..])
  }

  /** A key has a value exactly when it is one of the keys. */
  lemma {:induction false} GetNone<K(!new), V>(d: Dict<K, V>, k: K)
    ensures Get(d, k).None? <==> k !in Keys(d)
  {
    if |d| > 0 && d[0].key != k {
      GetNone(d[1..], k);
      assert Keys(d) == [d[0].key] + Keys(d[1..]);
    }
  }

  /** With distinct keys, looking up the key of an entry yields that entry's value. */
  lemma {:induction false} GetAt<K(!new), V>(d: Dict<K, V>, i: nat)
    requires Distinct(Keys(d))
    requires i < |d|
    ensures Get(d, d[i].key) == Some(d[i].value)
  {
    if i > 0 {
      assert Keys(d)[0] != Keys(d)[i];
      assert Distinct(Keys(d[1..])) by {
        forall a, b | 0 <= a < b < |d| - 1
          ensures Keys(d[1..])[a] != Keys(d[1..])[b]
        {
          assert Keys(d)[a + 1] != Keys(d)[b + 1];
        }
      }
      GetAt(d[1..], i - 1);
    }
  }

  /** Putting a fresh key keeps the keys distinct. */
  lemma {:induction false} PutKeepsDistinct<K(!new), V>(d: Dict<K, V>, k: K, v: V)
    requires Distinct(Keys(d))
    ensures Distinct(Keys(Put(d, k, v)))
  {
    var ks := Keys(d);
    if k !in ks {
      var ks' := ks + [k];
      forall i, j | 0 <= i < j < |ks'|
        ensures ks'[i] != ks'[j]
      {
        if j == |ks| {
          assert ks'[i] == ks[i];
        }
      }
    }
  }

  /** The total of a dict whose first entry is `e`. */
  lemma {:induction false} SumValuesCons<K>(e: Entry<K, real>, t: Dict<K, real>)
    ensures SumValues([e] + t) == e.value + SumValues(t)
  {
    assert ([e] + t)[1..] == t;
  }

  /** Replacing the value under `k` changes the total by the difference. */
  lemma {:induction false} PutSum<K(!new)>(d: Dict<K, real>, k: K, v: real)
    ensures SumValues(Put(d, k, v)) == SumValues(d) - Get(d, k).GetOr(0.0) + v
  {
    if |d| == 0 {
    } else if d[0].key == k {
      SumValuesCons(Entry(k, v), d[1..]);
    } else {
      PutSum(d[1..], k, v);
      SumValuesCons(d[0], Put(d[1..], k, v));
    }
  }

  /** Accumulating `a` under one key raises the total of all values by exactly `a`. */
  lemma {:induction false} AccumulateSum<K(!new)>(d: Dict<K, real>, k: K, a: real)
    ensures SumValues(Accumulate(d, k, a)) == SumValues(d) + a
  {
    var v := Get(d, k).GetOr(0.0) + a;
    PutSum(d, k, v);
    assert Accumulate(d, k, a) == Put(d, k, v);
  }

  /** Accumulating under `k` adds `a` to the value of `k` (absent counts as 0) and leaves every other key alone. */
  lemma {:induction false} AccumulateGet<K(!new)>(d: Dict<K, real>, k: K, a: real, c: K)
    ensures Get(Accumulate(d, k, a), c) == if c == k then Some(Get(d, k).GetOr(0.0) + a) else Get(d, c)
  {
    var v := Get(d, k).GetOr(0.0) + a;
    var r := Put(d, k, v);
    assert Accumulate(d, k, a) == r;
    if c == k {
      assert Get(r, k) == Some(v);
    } else {
      assert Get(r, c) == Get(d, c);
    }
  }
}
