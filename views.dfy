/**
 * The gating every dashboard and category component does before it draws
 * anything: no data first, then the loading message, then the content.
 */
module Views {
  /**
   * A `displayTotal…` prop: the pages pass the number 0 when the total is not
   * positive, and otherwise the text `formatAmount` made of it.
   */
  datatype DisplayTotal = Zero | Formatted(text: string)

  /** What a component shows. */
  datatype Screen<T> = NoData | Loading | Ready(content: T)

  /**
   * `if (displayTotal === 0) …; if (loading) …; return content`: the empty
   * state wins over the loading state.
   */
  function Gate<T>(total: DisplayTotal, loading: bool, content: T): (s: Screen<T>)
    ensures s.NoData? <==> total.Zero?
    ensures s.Loading? <==> !total.Zero? && loading
    ensures s.Ready? ==> s.content == content
  {
    if total.Zero? then NoData else if loading then Loading else Ready(content)
  }
}
