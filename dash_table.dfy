/**
 * The dashboard table (dashboard/DashTable.jsx): the summary entries in
 * preference order, one table row per sub-category, the category cell on the
 * first row of each category spanning all of its rows, and a footer with the
 * number of categories.
 */
module DashTable {
  import opened Wrappers
  import opened Aggregation
  import opened CategoryOrder
  import opened Views

  /** The category cell: name, formatted total, and how many rows it spans. */
  datatype Cell = Cell(category: string, totalBalance: int, rowSpan: nat)

  /** A `<tr>`: the category cell on the first row only, then the account and its amount. */
  datatype Row = Row(cell: Option<Cell>, subCategory: string, amount: int)

  /** What the table shows once it is past the empty and loading states. */
  datatype Table = Table(rows: seq<Row>, categoryCount: nat, total: DisplayTotal)

  /** Number of sub-categories of a category. */
  function SubCount(c: CategorySummary): int {
    |c.subCategories|
  }

  /** The rows of one category: one per sub-category, the first carrying the spanning cell. */
  function CategoryRows(name: string, data: CategorySummary): (rows: seq<Row>)
    ensures |rows| == |data.subCategories|
    ensures forall i :: 0 <= i < |rows| ==> rows[i].subCategory == data.subCategories[i].0 && rows[i].amount == data.subCategories[i].1
    ensures forall i :: 0 <= i < |rows| ==> (rows[i].cell.Some? <==> i == 0)
    ensures rows != [] ==> rows[0].cell == Some(Cell(name, data.totalBalance, |rows|))
  {
    seq(|data.subCategories|, i requires 0 <= i < |data.subCategories| =>
      Row(if i == 0 then Some(Cell(name, data.totalBalance, |data.subCategories|)) else None,
          data.subCategories[i].0, data.subCategories[i].1))
  }

  /** The table body: the rows of each entry, in the order of `entries`. */
  function TableRows(entries: Summary): seq<Row> {
    if entries == [] then [] else CategoryRows(entries[0].0, entries[0].1) + TableRows(entries[1..])
  }

  /** Sum of the row spans of the cells among `rows`. */
  function SpanTotal(rows: seq<Row>): int {
    if rows == [] then 0 else (if rows[0].cell.Some? then rows[0].cell.value.rowSpan else 0) + SpanTotal(rows[1..])
  }

  /** The categories whose cell appears among `rows`, in order. */
  function Cells(rows: seq<Row>): seq<string> {
    if rows == [] then [] else (if rows[0].cell.Some? then [rows[0].cell.value.category] else []) + Cells(rows[1..])
  }

  /** The categories of `entries` that have at least one sub-category, in order. */
  function Spanning(entries: Summary): seq<string> {
    if entries == [] then [] else (if entries[0].1.subCategories != [] then [entries[0].0] else []) + Spanning(entries[1..])
  }

  lemma {:induction false} SpanTotalAppend(a: seq<Row>, b: seq<Row>)
    ensures SpanTotal(a + b) == SpanTotal(a) + SpanTotal(b)
    ensures Cells(a + b) == Cells(a) + Cells(b)
  {
    if a == [] {
      assert a + b == b;
    } else {
      assert (a + b)[0] == a[0] && (a + b)[1..] == a[1..] + b;
      SpanTotalAppend(a[1..], b);
    }
  }

  /** Rows past the first of a category carry no cell. */
  lemma {:induction false} NoCells(rows: seq<Row>)
    requires forall i :: 0 <= i < |rows| ==> rows[i].cell.None?
    ensures SpanTotal(rows) == 0 && Cells(rows) == []
  {
    if rows != [] {
      NoCells(rows[1..]);
    }
  }

  /** A category's cell spans exactly its own rows. */
  lemma CategorySpans(name: string, data: CategorySummary)
    ensures SpanTotal(CategoryRows(name, data)) == |CategoryRows(name, data)|
    ensures Cells(CategoryRows(name, data)) == if data.subCategories == [] then [] else [name]
  {
    var rows := CategoryRows(name, data);
    if rows != [] {
      NoCells(rows[1..]);
    }
  }

  /** One row per sub-category. */
  lemma {:induction false} TableRowCount(entries: Summary)
    ensures |TableRows(entries)| == SumBy(entries, SubCount)
  {
    if entries != [] {
      TableRowCount(entries[1..]);
    }
  }

  /**
   * The spanning cells cover the body exactly: their spans add up to the
   * number of rows, and there is one cell for each category that has rows,
   * in table order.
   */
  lemma {:induction false} SpansCoverRows(entries: Summary)
    ensures SpanTotal(TableRows(entries)) == |TableRows(entries)|
    ensures Cells(TableRows(entries)) == Spanning(entries)
  {
    if entries != [] {
      SpansCoverRows(entries[1..]);
      CategorySpans(entries[0].0, entries[0].1);
      SpanTotalAppend(CategoryRows(entries[0].0, entries[0].1), TableRows(entries[1..]));
    }
  }

  /**
   * The table drawn from a summary: its rows follow the preference order,
   * there is one row per sub-category of the summary, and the footer counts
   * the summary's categories.
   */
  function TableOf(summary: Summary, displayTotal: DisplayTotal): (t: Table)
    ensures t.categoryCount == |summary|
    ensures |t.rows| == SumBy(summary, SubCount)
    ensures SpanTotal(t.rows) == |t.rows|
  {
    var sorted := SortByPreference(summary);
    SortPermutes(summary);
    SortKeepsSum(summary, SubCount);
    TableRowCount(sorted);
    SpansCoverRows(sorted);
    Table(TableRows(sorted), |sorted|, displayTotal)
  }

  /**
   * `DashTable`: the empty state when the total shown is 0, even while
   * loading; then the loading state; then the table.
   */
  function Render(summary: Summary, displayTotal: DisplayTotal, loading: bool): (s: Screen<Table>)
    ensures displayTotal.Zero? ==> s == NoData
    ensures !displayTotal.Zero? && loading ==> s == Loading
    ensures !displayTotal.Zero? && !loading ==> s.Ready? && s.content.categoryCount == |summary|
  {
    Gate(displayTotal, loading, TableOf(summary, displayTotal))
  }
}
