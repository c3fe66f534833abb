/**
 * The dashboard pie chart (dashboard/DashGraph.jsx): the portfolio total, one
 * chart item per category in preference order, and a legend in chart order.
 */
module DashGraph {
  import opened Wrappers
  import opened Collections
  import opened Aggregation
  import opened CategoryOrder
  import opened Views

  /** One slice: the category's name and total. */
  datatype ChartItem = ChartItem(name: string, value: int)

  /** A legend line: the slice's name and its colour, when the four colours reach that far. */
  datatype LegendEntry = LegendEntry(name: string, colour: Option<string>)

  datatype Chart = Chart(items: seq<ChartItem>, legend: seq<LegendEntry>, total: int)

  const Colours: seq<string> := ["#10B981", "#3B82F6", "#F59E0B", "#EF4444"]

  function TotalOf(c: CategorySummary): int {
    c.totalBalance
  }

  /**
   * `Object.values(portfolioSummary).reduce((sum, c) => sum + c.total_balance, 0)`:
   * a left fold, adding the last category last.
   */
  function TotalPortfolio(summary: Summary): int {
    if summary == [] then 0
    else TotalPortfolio(summary[..|summary| - 1]) + summary[|summary| - 1].1.totalBalance
  }

  lemma {:induction false} SumBySnoc<V>(s: seq<(string, V)>, f: V -> int)
    requires s != []
    ensures SumBy(s, f) == SumBy(s[..|s| - 1], f) + f(s[|s| - 1].1)
  {
    if |s| > 1 {
      SumBySnoc(s[1..], f);
      assert s[1..][..|s[1..]| - 1] == s[..|s| - 1][1..];
    }
  }

  /** The fold gives the sum of all category totals. */
  lemma {:induction false} TotalIsSum(summary: Summary)
    ensures TotalPortfolio(summary) == SumBy(summary, TotalOf)
  {
    if summary != [] {
      TotalIsSum(summary[..|summary| - 1]);
      SumBySnoc(summary, TotalOf);
    }
  }

  /** `.map(([name, data]) => ({ name, value: data.total_balance }))`. */
  function Items(entries: Summary): (items: seq<ChartItem>)
    ensures |items| == |entries|
    ensures forall i :: 0 <= i < |items| ==> items[i] == ChartItem(entries[i].0, entries[i].1.totalBalance)
  {
    if entries == [] then [] else [ChartItem(entries[0].0, entries[0].1.totalBalance)] + Items(entries[1..])
  }

  function ValueSum(items: seq<ChartItem>): int {
    if items == [] then 0 else items[0].value + ValueSum(items[1..])
  }

  function Names(items: seq<ChartItem>): seq<string> {
    if items == [] then [] else [items[0].name] + Names(items[1..])
  }

  lemma {:induction false} ItemsSum(entries: Summary)
    ensures ValueSum(Items(entries)) == SumBy(entries, TotalOf)
    ensures Names(Items(entries)) == Keys(entries)
  {
    if entries != [] {
      ItemsSum(entries[1..]);
      assert Items(entries)[1..] == Items(entries[1..]);
    }
  }

  /** `chartData`: the summary's entries sorted by preference, one item each. */
  function ChartData(summary: Summary): seq<ChartItem> {
    Items(SortByPreference(summary))
  }

  /** One item per category: the chart names the summary's categories, each as often as the summary does. */
  lemma ChartOnePerCategory(summary: Summary)
    ensures |ChartData(summary)| == |summary|
    ensures multiset(Names(ChartData(summary))) == multiset(Keys(summary))
  {
    SortPermutes(summary);
    ItemsSum(SortByPreference(summary));
    SortKeepsKeys(summary);
  }

  /** The slices add up to `totalPortfolio`. */
  lemma ChartSumIsTotal(summary: Summary)
    ensures ValueSum(ChartData(summary)) == TotalPortfolio(summary)
  {
    ItemsSum(SortByPreference(summary));
    SortKeepsSum(summary, TotalOf);
    TotalIsSum(summary);
  }

  /** The chart's items follow the preference order. */
  lemma ChartOrdered(summary: Summary, i: nat, j: nat)
    requires i < j < |ChartData(summary)|
    ensures Rank(ChartData(summary)[i].name) <= Rank(ChartData(summary)[j].name)
  {
    SortOrdered(summary);
  }

  /** The legend: one line per chart item, in chart order, coloured `colors[index]`. */
  function Legend(items: seq<ChartItem>): (legend: seq<LegendEntry>)
    ensures |legend| == |items|
    ensures forall i :: 0 <= i < |items| ==> legend[i].name == items[i].name
    ensures forall i :: 0 <= i < |items| ==> (legend[i].colour.Some? <==> i < |Colours|)
  {
    seq(|items|, i requires 0 <= i < |items| =>
      LegendEntry(items[i].name, if i < |Colours| then Some(Colours[i]) else None))
  }

  /** `DashGraph`: the loading state, or the chart and its legend. */
  function Render(summary: Summary, loading: bool): (s: Screen<Chart>)
    ensures !s.NoData?
    ensures s.Loading? <==> loading
    ensures s.Ready? ==> |s.content.legend| == |summary| && ValueSum(s.content.items) == s.content.total
  {
    ChartOnePerCategory(summary);
    ChartSumIsTotal(summary);
    var items := ChartData(summary);
    if loading then Loading else Ready(Chart(items, Legend(items), TotalPortfolio(summary)))
  }
}
