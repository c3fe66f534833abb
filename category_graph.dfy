/**
 * The category pie chart (categories/CategoryGraph.jsx): the category's
 * total, one chart item per sub-category, sorted in place by descending
 * value, and one background colour per item from a palette of ten.
 */
module CategoryGraph {
  import opened Views

  /** One slice: a sub-category and its amount. */
  datatype ChartItem = ChartItem(name: string, value: int)

  datatype Chart = Chart(items: seq<ChartItem>, colours: seq<string>, total: int)

  const Palette: seq<string> :=
    ["#10B981", "#3B82F6", "#F59E0B", "#EF4444", "#8B5CF6", "#06B6D4", "#F97316", "#84CC16", "#EC4899", "#6B7280"]

  /** `Object.values(categorySummary).reduce((sum, amount) => sum + amount, 0)`, a left fold. */
  function TotalCategory(summary: seq<(string, int)>): int {
    if summary == [] then 0 else TotalCategory(summary[..|summary| - 1]) + summary[|summary| - 1].1
  }

  function ValueSum(items: seq<ChartItem>): int {
    if items == [] then 0 else ValueSum(items[..|items| - 1]) + items[|items| - 1].value
  }

  /** `Object.entries(categorySummary).map(([name, value]) => ({ name, value }))`. */
  function ChartData(summary: seq<(string, int)>): (items: seq<ChartItem>)
    ensures |items| == |summary|
    ensures forall i :: 0 <= i < |items| ==> items[i] == ChartItem(summary[i].0, summary[i].1)
    ensures ValueSum(items) == TotalCategory(summary)
  {
    if summary == [] then []
    else
      var items := ChartData(summary[..|summary| - 1]) + [ChartItem(summary[|summary| - 1].0, summary[|summary| - 1].1)];
      assert items[..|items| - 1] == ChartData(summary[..|summary| - 1]);
      items
  }

  /**
   * Puts `x` after the last element of `ys` whose value is at least
   * `x.value`: the comparator `b.value - a.value` moves `x` only past
   * strictly smaller values, so equal values keep their order.
   */
  function InsertDesc(ys: seq<ChartItem>, x: ChartItem): seq<ChartItem> {
    if ys == [] || ys[|ys| - 1].value >= x.value then ys + [x]
    else InsertDesc(ys[..|ys| - 1], x) + [ys[|ys| - 1]]
  }

  /** `chartData.sort((a, b) => b.value - a.value)`, a stable sort. */
  function SortDesc(items: seq<ChartItem>): seq<ChartItem> {
    if items == [] then [] else InsertDesc(SortDesc(items[..|items| - 1]), items[|items| - 1])
  }

  predicate NonIncreasing(items: seq<ChartItem>) {
    forall i, j :: 0 <= i < j < |items| ==> items[i].value >= items[j].value
  }

  /** The items of value `v`, in order. */
  function Ties(items: seq<ChartItem>, v: int): seq<ChartItem> {
    if items == [] then [] else Ties(items[..|items| - 1], v) + (if items[|items| - 1].value == v then [items[|items| - 1]] else [])
  }

  lemma {:induction false} InsertDescPermutes(ys: seq<ChartItem>, x: ChartItem)
    ensures multiset(InsertDesc(ys, x)) == multiset(ys) + multiset{x}
  {
    if ys != [] && ys[|ys| - 1].value < x.value {
      InsertDescPermutes(ys[..|ys| - 1], x);
      assert ys == ys[..|ys| - 1] + [ys[|ys| - 1]];
    }
  }

  lemma {:induction false} InsertDescOrdered(ys: seq<ChartItem>, x: ChartItem)
    requires NonIncreasing(ys)
    ensures NonIncreasing(InsertDesc(ys, x))
  {
    if ys != [] && ys[|ys| - 1].value < x.value {
      var init, last := ys[..|ys| - 1], ys[|ys| - 1];
      var rest := InsertDesc(init, x);
      InsertDescOrdered(init, x);
      InsertDescPermutes(init, x);
      forall e | e in rest
        ensures e.value >= last.value
      {
        assert e in multiset(rest);
        if e != x {
          assert e in multiset(init);
          assert e in init;
        }
      }
      forall i, j | 0 <= i < j < |rest + [last]|
        ensures (rest + [last])[i].value >= (rest + [last])[j].value
      {
        assert (rest + [last])[i] == rest[i];
        if j < |rest| {
          assert (rest + [last])[j] == rest[j];
        }
      }
    }
  }

  lemma {:induction false} InsertDescTies(ys: seq<ChartItem>, x: ChartItem, v: int)
    ensures Ties(InsertDesc(ys, x), v) == Ties(ys, v) + (if x.value == v then [x] else [])
  {
    if ys == [] || ys[|ys| - 1].value >= x.value {
      assert (ys + [x])[..|ys + [x]| - 1] == ys;
    } else {
      var init, last := ys[..|ys| - 1], ys[|ys| - 1];
      InsertDescTies(init, x, v);
      assert (InsertDesc(init, x) + [last])[..|InsertDesc(init, x) + [last]| - 1] == InsertDesc(init, x);
    }
  }

  lemma {:induction false} InsertDescSum(ys: seq<ChartItem>, x: ChartItem)
    ensures ValueSum(InsertDesc(ys, x)) == ValueSum(ys) + x.value
  {
    if ys == [] || ys[|ys| - 1].value >= x.value {
      assert (ys + [x])[..|ys + [x]| - 1] == ys;
    } else {
      var init, last := ys[..|ys| - 1], ys[|ys| - 1];
      InsertDescSum(init, x);
      assert (InsertDesc(init, x) + [last])[..|InsertDesc(init, x) + [last]| - 1] == InsertDesc(init, x);
    }
  }

  /** The sorted values never increase. */
  lemma {:induction false} SortDescOrdered(items: seq<ChartItem>)
    ensures NonIncreasing(SortDesc(items))
  {
    if items != [] {
      SortDescOrdered(items[..|items| - 1]);
      InsertDescOrdered(SortDesc(items[..|items| - 1]), items[|items| - 1]);
    }
  }

  /** The sort is a permutation. */
  lemma {:induction false} SortDescPermutes(items: seq<ChartItem>)
    ensures multiset(SortDesc(items)) == multiset(items)
  {
    if items != [] {
      var init, last := items[..|items| - 1], items[|items| - 1];
      SortDescPermutes(init);
      InsertDescPermutes(SortDesc(init), last);
      SnocMultiset(items);
    }
  }

  lemma SnocMultiset(items: seq<ChartItem>)
    requires items != []
    ensures multiset(items) == multiset(items[..|items| - 1]) + multiset{items[|items| - 1]}
  {
    assert items == items[..|items| - 1] + [items[|items| - 1]];
  }

  /** Items of equal value stay in their input order. */
  lemma {:induction false} SortDescStable(items: seq<ChartItem>, v: int)
    ensures Ties(SortDesc(items), v) == Ties(items, v)
  {
    if items != [] {
      SortDescStable(items[..|items| - 1], v);
      InsertDescTies(SortDesc(items[..|items| - 1]), items[|items| - 1], v);
    }
  }

  /** The values still add up to `totalCategory` after the sort. */
  lemma {:induction false} SortDescSum(items: seq<ChartItem>)
    ensures ValueSum(SortDesc(items)) == ValueSum(items)
  {
    if items != [] {
      SortDescSum(items[..|items| - 1]);
      InsertDescSum(SortDesc(items[..|items| - 1]), items[|items| - 1]);
    }
  }

  /** One step of the inner loop: moving `x` past a smaller last element. */
  lemma InsertDescStep(s: seq<ChartItem>, x: ChartItem, j: nat)
    requires 0 < j <= |s| && s[j - 1].value < x.value
    ensures InsertDesc(s[..j], x) + s[j..] == InsertDesc(s[..j - 1], x) + s[j - 1..]
  {
    assert s[..j][..j - 1] == s[..j - 1];
    assert s[j - 1..] == [s[j - 1]] + s[j..];
  }

  /** One shift of the inner loop: the item at `j - 1` is copied one place right, into the gap. */
  lemma ShiftRight(b: seq<ChartItem>, s: seq<ChartItem>, e: ChartItem, rest: seq<ChartItem>, j: nat)
    requires 0 < j <= |s| && b == s[..j] + [e] + s[j..] + rest
    ensures b[j - 1] == s[j - 1]
    ensures b[j := b[j - 1]] == s[..j - 1] + [s[j - 1]] + s[j - 1..] + rest
  {
    assert s[..j] == s[..j - 1] + [s[j - 1]];
    assert s[j - 1..] == [s[j - 1]] + s[j..];
  }

  /** The final store of the inner loop puts the item into the gap. */
  lemma FillGap(b: seq<ChartItem>, s: seq<ChartItem>, e: ChartItem, x: ChartItem, rest: seq<ChartItem>, j: nat)
    requires j <= |s| && b == s[..j] + [e] + s[j..] + rest
    ensures b[j := x][..|s| + 1] == s[..j] + [x] + s[j..]
    ensures b[j := x][|s| + 1..] == rest
  {
    assert b[j := x] == (s[..j] + [x] + s[j..]) + rest;
  }

  /** The inner loop: moves `a[i]` left past the smaller items of the sorted prefix `a[..i]`. */
  method InsertItem(a: array<ChartItem>, i: nat)
    requires i < a.Length
    modifies a
    ensures a[..i + 1] == InsertDesc(old(a[..i]), old(a[i]))
    ensures a[i + 1..] == old(a[i + 1..])
  {
    ghost var s := a[..i];
    ghost var rest := a[i + 1..];
    var x := a[i];
    var j := i;
    assert s[..i] == s && s[i..] == [];
    assert a[..] == s[..j] + [a[j]] + s[j..] + rest by {
      assert a[..] == a[..i] + [a[i]] + a[i + 1..];
    }
    while j > 0 && a[j - 1].value < x.value
      invariant 0 <= j <= i
      invariant a[..] == s[..j] + [a[j]] + s[j..] + rest
      invariant InsertDesc(s, x) == InsertDesc(s[..j], x) + s[j..]
    {
      ShiftRight(a[..], s, a[j], rest, j);
      InsertDescStep(s, x, j);
      a[j] := a[j - 1];
      j := j - 1;
    }
    FillGap(a[..], s, a[j], x, rest, j);
    a[j] := x;
    assert a[..i + 1] == a[..][..i + 1];
    assert a[i + 1..] == a[..][i + 1..];
  }

  /**
   * `chartData.sort(...)` on the array in place: an insertion sort that
   * shifts smaller items right, leaving the array as `SortDesc` of its old
   * contents.
   */
  method SortChartData(a: array<ChartItem>)
    modifies a
    ensures a[..] == SortDesc(old(a[..]))
  {
    ghost var input := a[..];
    var i := 0;
    while i < a.Length
      invariant 0 <= i <= a.Length && |input| == a.Length
      invariant a[..i] == SortDesc(input[..i])
      invariant a[i..] == input[i..]
    {
      assert a[i] == input[i] by { assert a[i..][0] == a[i]; }
      SortDescSnoc(input, i);
      InsertItem(a, i);
      assert a[i + 1..] == input[i + 1..] by { assert input[i + 1..] == input[i..][1..]; }
      i := i + 1;
    }
    assert a[..] == a[..a.Length];
    assert input[..a.Length] == input;
  }

  lemma SortDescSnoc(items: seq<ChartItem>, i: nat)
    requires i < |items|
    ensures SortDesc(items[..i + 1]) == InsertDesc(SortDesc(items[..i]), items[i])
  {
    assert items[..i + 1][..i] == items[..i];
  }

  /**
   * The chart built from a category summary: its total, its items sorted by
   * descending value, and the first min(items, 10) palette colours.
   */
  method ChartOf(summary: seq<(string, int)>) returns (chart: Chart)
    ensures chart.total == TotalCategory(summary)
    ensures chart.items == SortDesc(ChartData(summary))
    ensures |chart.colours| == if |summary| < |Palette| then |summary| else |Palette|
    ensures chart.colours == Palette[..|chart.colours|]
  {
    var data := ChartData(summary);
    var a := new ChartItem[|data|](i requires 0 <= i < |data| => data[i]);
    assert a[..] == data;
    SortChartData(a);
    var shown := if a.Length < |Palette| then a.Length else |Palette|;
    chart := Chart(a[..], Palette[..shown], TotalCategory(summary));
  }

  /**
   * `CategoryGraph`: no data when the total shown is 0, before the loading
   * check; otherwise the loading state or the chart.
   */
  method Render(summary: seq<(string, int)>, displayTotal: DisplayTotal, loading: bool) returns (s: Screen<Chart>)
    ensures displayTotal.Zero? ==> s == NoData
    ensures !displayTotal.Zero? && loading ==> s == Loading
    ensures !displayTotal.Zero? && !loading ==> s.Ready? && s.content.items == SortDesc(ChartData(summary))
  {
    if displayTotal.Zero? {
      return NoData;
    }
    if loading {
      return Loading;
    }
    var chart := ChartOf(summary);
    s := Ready(chart);
  }

  /** The chart's properties, stated of the specification the method meets. */
  lemma ChartProperties(summary: seq<(string, int)>)
    ensures NonIncreasing(SortDesc(ChartData(summary)))
    ensures multiset(SortDesc(ChartData(summary))) == multiset(ChartData(summary))
    ensures ValueSum(SortDesc(ChartData(summary))) == TotalCategory(summary)
  {
    SortDescOrdered(ChartData(summary));
    SortDescPermutes(ChartData(summary));
    SortDescSum(ChartData(summary));
  }
}
