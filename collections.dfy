/**
 * Sums over sequences and ordered dictionaries.
 *
 * A dictionary is modelled as an association list `seq<(K, V)>` whose keys
 * are distinct. On the server the order is the insertion order of a Python
 * dict; on the frontend it is whatever order the entries arrive in, since
 * the JSON encoding and `Object.entries` choose their own key order.
 */
module Collections {
  import opened Wrappers

  /** Sum of a sequence of integers (`sum(...)`, `reduce((a, b) => a + b, 0)`). */
  function Sum(s: seq<int>): int {
    if s == [] then 0 else s[0] + Sum(s[1..])
  }

  lemma {:induction false} SumAppend(a: seq<int>, b: seq<int>)
    ensures Sum(a + b) == Sum(a) + Sum(b)
  {
    if a == [] {
      assert a + b == b;
    } else {
      assert (a + b)[1..] == a[1..] + b;
      SumAppend(a[1..], b);
    }
  }

  /** The keys of an association list, in order. */
  function Keys<K, V>(d: seq<(K, V)>): (ks: seq<K>)
    ensures |ks| == |d|
    ensures forall i :: 0 <= i < |d| ==> ks[i] == d[i].0
  {
    if d == [] then [] else [d[0].0] + Keys(d[1..])
  }

  /** The values of an association list, in order (`Object.values`, `dict.values()`). */
  function Values<K, V>(d: seq<(K, V)>): (vs: seq<V>)
    ensures |vs| == |d|
    ensures forall i :: 0 <= i < |d| ==> vs[i] == d[i].1
  {
    if d == [] then [] else [d[0].1] + Values(d[1..])
  }

  /** No key occurs twice: the association list is a dictionary. */
  ghost predicate DistinctKeys<K, V>(d: seq<(K, V)>) {
    forall i, j :: 0 <= i < j < |d| ==> d[i].0 != d[j].0
  }

  /** `d.get(k)`: the value stored under `k`, if any. */
  function Get<K(==), V>(d: seq<(K, V)>, k: K): Option<V> {
    if d == [] then None
    else if d[0].0 == k then Some(d[0].1)
    else Get(d[1..], k)
  }

  /** `k in d`: a key is found exactly when it is one of the keys. */
  lemma {:induction false} GetFound<K, V>(d: seq<(K, V)>, k: K)
    ensures Get(d, k).Some? <==> k in Keys(d)
  {
    if d != [] {
      assert Keys(d) == [d[0].0] + Keys(d[1..]);
      GetFound(d[1..], k);
    }
  }

  /**
   * The additive update used by every aggregator of the system:
   * `if k not in d: d[k] = 0` followed by `d[k] += x`.
   */
  function AddTo<K(==)>(d: seq<(K, int)>, k: K, x: int): seq<(K, int)> {
    if d == [] then [(k, x)]
    else if d[0].0 == k then [(k, d[0].1 + x)] + d[1..]
    else [d[0]] + AddTo(d[1..], k, x)
  }

  /** An existing key keeps its position and a new key is appended. */
  lemma {:induction false} AddToKeys<K>(d: seq<(K, int)>, k: K, x: int)
    ensures Keys(AddTo(d, k, x)) == if k in Keys(d) then Keys(d) else Keys(d) + [k]
  {
    if d != [] {
      assert Keys(d) == [d[0].0] + Keys(d[1..]);
      if d[0].0 == k {
        assert Keys(AddTo(d, k, x)) == [k] + Keys(d[1..]);
      } else {
        AddToKeys(d[1..], k, x);
        assert Keys(AddTo(d, k, x)) == [d[0].0] + Keys(AddTo(d[1..], k, x));
      }
    }
  }

  /** Adding `x` under `k` changes the value under `k` only, and by exactly `x`. */
  lemma {:induction false} AddToGet<K>(d: seq<(K, int)>, k: K, x: int, j: K)
    ensures Get(AddTo(d, k, x), j) == if j == k then Some(Get(d, k).GetOr(0) + x) else Get(d, j)
  {
    if d == [] {
    } else if d[0].0 == k {
      assert AddTo(d, k, x)[1..] == d[1..];
    } else {
      AddToGet(d[1..], k, x, j);
      assert AddTo(d, k, x)[1..] == AddTo(d[1..], k, x);
    }
  }

  /** Adding `x` under any key raises the sum of the values by exactly `x`. */
  lemma {:induction false} AddToSum<K>(d: seq<(K, int)>, k: K, x: int)
    ensures Sum(Values(AddTo(d, k, x))) == Sum(Values(d)) + x
  {
    if d == [] {
    } else if d[0].0 == k {
      assert Values([(k, d[0].1 + x)] + d[1..]) == [d[0].1 + x] + Values(d[1..]);
    } else {
      AddToSum(d[1..], k, x);
      assert Values([d[0]] + AddTo(d[1..], k, x)) == [d[0].1] + Values(AddTo(d[1..], k, x));
    }
  }

  /** The additive update keeps the keys distinct. */
  lemma AddToDistinct<K>(d: seq<(K, int)>, k: K, x: int)
    requires DistinctKeys(d)
    ensures DistinctKeys(AddTo(d, k, x))
  {
    var r := AddTo(d, k, x);
    AddToKeys(d, k, x);
    forall i, j | 0 <= i < j < |r| ensures r[i].0 != r[j].0 {
      assert Keys(r)[i] == r[i].0 && Keys(r)[j] == r[j].0;
      if k !in Keys(d) {
        assert i < |d|;
        assert Keys(d)[i] == d[i].0;
        if j < |d| {
          assert Keys(d)[j] == d[j].0;
        }
      } else {
        assert Keys(d)[i] == d[i].0 && Keys(d)[j] == d[j].0;
      }
    }
  }

  /** In a dictionary, the entry at position `i` is what `Get` finds under its key. */
  lemma GetAt<K, V>(d: seq<(K, V)>, i: nat)
    requires DistinctKeys(d) && i < |d|
    ensures Get(d, d[i].0) == Some(d[i].1)
  {
    if i > 0 {
      assert d[0].0 != d[i].0;
      assert d[1..][i - 1] == d[i];
      GetAt(d[1..], i - 1);
    }
  }

  /** The tail of a dictionary is a dictionary that does not hold the head's key. */
  lemma DistinctTail<K, V>(d: seq<(K, V)>)
    requires DistinctKeys(d) && d != []
    ensures DistinctKeys(d[1..]) && d[0].0 !in Keys(d[1..])
  {
    assert forall i :: 0 <= i < |d| - 1 ==> d[1..][i] == d[i + 1];
  }

  /** Putting an entry with a fresh key in front of a dictionary gives a dictionary. */
  lemma DistinctCons<K, V>(x: (K, V), d: seq<(K, V)>)
    requires DistinctKeys(d) && x.0 !in Keys(d)
    ensures DistinctKeys([x] + d)
  {
    var r := [x] + d;
    forall i, j | 0 <= i < j < |r| ensures r[i].0 != r[j].0 {
      assert r[j] == d[j - 1];
      if i > 0 {
        assert r[i] == d[i - 1];
      } else {
        assert Keys(d)[j - 1] == d[j - 1].0;
      }
    }
  }
}
