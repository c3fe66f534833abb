/**
 * The fixed-preference category order shared by the dashboard table and the
 * dashboard pie chart: `Object.entries(portfolioSummary).sort(...)` with a
 * comparator that ranks a category by its position in
 * ['Épargne', 'Immobilier', 'Actions', 'Autres'] and every other category
 * after them.
 */
module CategoryOrder {
  import opened Collections

  const Preference: seq<string> := ["Épargne", "Immobilier", "Actions", "Autres"]

  /**
   * `categoryOrder.indexOf(name)`, with `categoryOrder.length` in place of -1:
   * the first position of `name` in the list, 4 when it is not listed.
   */
  function Rank(name: string): (r: nat)
    ensures r <= |Preference|
  {
    if name == Preference[0] then 0
    else if name == Preference[1] then 1
    else if name == Preference[2] then 2
    else if name == Preference[3] then 3
    else 4
  }

  /** A listed name ranks at its position in the list; every other name ranks after all of them. */
  lemma RankMeaning(name: string)
    ensures Rank(name) < |Preference| <==> name in Preference
    ensures Rank(name) < |Preference| ==> Preference[Rank(name)] == name
    ensures name !in Preference ==> Rank(name) == |Preference|
  {
  }

  /** The comparator `orderA - orderB`. */
  function Compare(a: string, b: string): int {
    Rank(a) - Rank(b)
  }

  /** Places `x` before the first entry that does not compare below it. */
  function Insert<V>(x: (string, V), ys: seq<(string, V)>): seq<(string, V)> {
    if ys == [] then [x]
    else if Compare(x.0, ys[0].0) <= 0 then [x] + ys
    else [ys[0]] + Insert(x, ys[1..])
  }

  /**
   * The sort of the entries with that comparator. `Array.prototype.sort` is
   * stable, so inserting each entry in front of the sorted rest leaves
   * entries of equal rank in their input order.
   */
  function SortByPreference<V>(entries: seq<(string, V)>): seq<(string, V)> {
    if entries == [] then [] else Insert(entries[0], SortByPreference(entries[1..]))
  }

  /** Ranks never decrease along `s`. */
  predicate Ordered<V>(s: seq<(string, V)>) {
    forall i, j :: 0 <= i < j < |s| ==> Rank(s[i].0) <= Rank(s[j].0)
  }

  /** The entries of `s` of rank `k`, in their order in `s`. */
  function Bucket<V>(s: seq<(string, V)>, k: nat): seq<(string, V)> {
    if s == [] then [] else (if Rank(s[0].0) == k then [s[0]] else []) + Bucket(s[1..], k)
  }

  lemma BucketCons<V>(x: (string, V), s: seq<(string, V)>, k: nat)
    ensures Bucket([x] + s, k) == (if Rank(x.0) == k then [x] else []) + Bucket(s, k)
  {
    assert ([x] + s)[0] == x && ([x] + s)[1..] == s;
  }

  lemma {:induction false} InsertPermutes<V>(x: (string, V), ys: seq<(string, V)>)
    ensures multiset(Insert(x, ys)) == multiset{x} + multiset(ys)
  {
    if ys != [] && Compare(x.0, ys[0].0) > 0 {
      InsertPermutes(x, ys[1..]);
      assert ys == [ys[0]] + ys[1..];
    }
  }

  /** Every entry of `s` ranks at least `r`. */
  predicate RanksAtLeast<V>(s: seq<(string, V)>, r: nat) {
    forall i :: 0 <= i < |s| ==> r <= Rank(s[i].0)
  }

  lemma OrderedCons<V>(y: (string, V), rest: seq<(string, V)>)
    requires Ordered(rest) && RanksAtLeast(rest, Rank(y.0))
    ensures Ordered([y] + rest)
  {
    var s := [y] + rest;
    forall i, j | 0 <= i < j < |s|
      ensures Rank(s[i].0) <= Rank(s[j].0)
    {
      assert s[j] == rest[j - 1];
      if i > 0 {
        assert s[i] == rest[i - 1];
      }
    }
  }

  lemma {:induction false} InsertRanksAtLeast<V>(x: (string, V), ys: seq<(string, V)>, r: nat)
    requires r <= Rank(x.0) && RanksAtLeast(ys, r)
    ensures RanksAtLeast(Insert(x, ys), r)
  {
    if ys != [] && Compare(x.0, ys[0].0) > 0 {
      var rest := Insert(x, ys[1..]);
      assert RanksAtLeast(ys[1..], r) by {
        forall i | 0 <= i < |ys[1..]| ensures r <= Rank(ys[1..][i].0) {
          assert ys[1..][i] == ys[i + 1];
        }
      }
      InsertRanksAtLeast(x, ys[1..], r);
      assert Insert(x, ys) == [ys[0]] + rest;
      forall i | 0 <= i < |[ys[0]] + rest| ensures r <= Rank(([ys[0]] + rest)[i].0) {
        if i > 0 {
          assert ([ys[0]] + rest)[i] == rest[i - 1];
        }
      }
    } else if ys != [] {
      forall i | 0 <= i < |[x] + ys| ensures r <= Rank(([x] + ys)[i].0) {
        if i > 0 {
          assert ([x] + ys)[i] == ys[i - 1];
        }
      }
    }
  }

  lemma {:induction false} InsertOrdered<V>(x: (string, V), ys: seq<(string, V)>)
    requires Ordered(ys)
    ensures Ordered(Insert(x, ys))
  {
    if ys == [] {
    } else if Compare(x.0, ys[0].0) <= 0 {
      OrderedCons(x, ys);
    } else {
      var tail := ys[1..];
      var r := Rank(ys[0].0);
      assert Ordered(tail) && RanksAtLeast(tail, r) by {
        forall i | 0 <= i < |tail| ensures tail[i] == ys[i + 1] { }
      }
      InsertOrdered(x, tail);
      InsertRanksAtLeast(x, tail, r);
      OrderedCons(ys[0], Insert(x, tail));
    }
  }

  lemma {:induction false} InsertBucket<V>(x: (string, V), ys: seq<(string, V)>, k: nat)
    ensures Bucket(Insert(x, ys), k) == (if Rank(x.0) == k then [x] else []) + Bucket(ys, k)
  {
    if ys == [] {
      BucketCons(x, [], k);
    } else if Compare(x.0, ys[0].0) <= 0 {
      BucketCons(x, ys, k);
    } else {
      BucketCons(ys[0], Insert(x, ys[1..]), k);
      InsertBucket(x, ys[1..], k);
      BucketCons(ys[0], ys[1..], k);
      assert [ys[0]] + ys[1..] == ys;
    }
  }

  /** Sum of `f` over the values of `s`. */
  function SumBy<V>(s: seq<(string, V)>, f: V -> int): int {
    if s == [] then 0 else f(s[0].1) + SumBy(s[1..], f)
  }

  lemma {:induction false} InsertSum<V>(x: (string, V), ys: seq<(string, V)>, f: V -> int)
    ensures SumBy(Insert(x, ys), f) == f(x.1) + SumBy(ys, f)
  {
    if ys != [] && Compare(x.0, ys[0].0) > 0 {
      InsertSum(x, ys[1..], f);
      assert ([ys[0]] + Insert(x, ys[1..]))[1..] == Insert(x, ys[1..]);
    } else if ys != [] {
      assert ([x] + ys)[1..] == ys;
    }
  }

  lemma {:induction false} InsertKeys<V>(x: (string, V), ys: seq<(string, V)>)
    ensures multiset(Keys(Insert(x, ys))) == multiset{x.0} + multiset(Keys(ys))
  {
    if ys == [] {
    } else if Compare(x.0, ys[0].0) <= 0 {
      assert Keys([x] + ys) == [x.0] + Keys(ys);
    } else {
      InsertKeys(x, ys[1..]);
      assert Keys([ys[0]] + Insert(x, ys[1..])) == [ys[0].0] + Keys(Insert(x, ys[1..]));
      assert Keys(ys) == [ys[0].0] + Keys(ys[1..]);
    }
  }

  /** Nothing is added or dropped. */
  lemma {:induction false} SortPermutes<V>(entries: seq<(string, V)>)
    ensures multiset(SortByPreference(entries)) == multiset(entries)
    ensures |SortByPreference(entries)| == |entries|
  {
    if entries != [] {
      SortPermutes(entries[1..]);
      InsertPermutes(entries[0], SortByPreference(entries[1..]));
      assert entries == [entries[0]] + entries[1..];
    }
    assert |multiset(SortByPreference(entries))| == |SortByPreference(entries)|;
  }

  /** The sorted entries are in preference order. */
  lemma {:induction false} SortOrdered<V>(entries: seq<(string, V)>)
    ensures Ordered(SortByPreference(entries))
  {
    if entries != [] {
      SortOrdered(entries[1..]);
      InsertOrdered(entries[0], SortByPreference(entries[1..]));
    }
  }

  /** Entries of the same rank, in particular all unlisted categories, keep their input order. */
  lemma {:induction false} SortStable<V>(entries: seq<(string, V)>, k: nat)
    ensures Bucket(SortByPreference(entries), k) == Bucket(entries, k)
  {
    if entries != [] {
      SortStable(entries[1..], k);
      InsertBucket(entries[0], SortByPreference(entries[1..]), k);
      BucketCons(entries[0], entries[1..], k);
      assert [entries[0]] + entries[1..] == entries;
    }
  }

  /**
   * Listed categories come in the listed order, and a category that is not
   * listed never comes before a listed one.
   */
  lemma PreferenceRespected<V>(entries: seq<(string, V)>, i: nat, j: nat)
    requires i < j < |SortByPreference(entries)|
    requires SortByPreference(entries)[j].0 in Preference
    ensures SortByPreference(entries)[i].0 in Preference
    ensures Rank(SortByPreference(entries)[i].0) <= Rank(SortByPreference(entries)[j].0)
  {
    SortOrdered(entries);
    RankMeaning(SortByPreference(entries)[i].0);
    RankMeaning(SortByPreference(entries)[j].0);
  }

  /** Any sum over the values, such as the sum of the category totals, is unchanged by the sort. */
  lemma {:induction false} SortKeepsSum<V>(entries: seq<(string, V)>, f: V -> int)
    ensures SumBy(SortByPreference(entries), f) == SumBy(entries, f)
  {
    if entries != [] {
      SortKeepsSum(entries[1..], f);
      InsertSum(entries[0], SortByPreference(entries[1..]), f);
    }
  }

  /** Each category name occurs as often after the sort as before. */
  lemma {:induction false} SortKeepsKeys<V>(entries: seq<(string, V)>)
    ensures multiset(Keys(SortByPreference(entries))) == multiset(Keys(entries))
  {
    if entries != [] {
      SortKeepsKeys(entries[1..]);
      InsertKeys(entries[0], SortByPreference(entries[1..]));
      assert Keys(entries) == [entries[0].0] + Keys(entries[1..]);
    }
  }
}
