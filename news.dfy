/** The news block on the home page: each item shows its year and a short date label, and links when it has a target. */
module News {
  import opened Wrappers
  import opened JsText
  import opened DateFormat

  datatype NewsItem = NewsItem(date: string, title: string, description: string, href: string)

  /** The year (the first `-` field read as a number) and the label the lists print. */
  datatype NewsDate = NewsDate(year: NumberValue, dateLabel: string)

  /** `formatNewsDate`. */
  function FormatNewsDate(dateStr: string): (r: NewsDate)
    ensures r.dateLabel == FormatDate(dateStr)
  {
    var parts := Split(dateStr, {'-'});
    NewsDate(NumberOf(parts[0]), DateLabel(parts))
  }

  /** The year of a date with a digit year field is that number; the label is the same as the lists'. */
  lemma NewsYearOf(year: string, rest: string)
    requires year != [] && AllDigits(year)
    ensures FormatNewsDate(year + "-" + rest).year == Finite(DigitsValue(year))
  {
    assert NoneIn(year, {'-'});
    SplitAfterPiece(year, '-', rest, {'-'});
    NumberOfDigits(year);
  }

  /** How an item is rendered: wrapped in a link to its target, or as a plain block. */
  datatype Rendering = Linked(href: string) | Plain

  /** An item is wrapped in a link exactly when its `href` is non-empty. */
  function Render(item: NewsItem): (r: Rendering)
    ensures r.Linked? <==> item.href != ""
    ensures r.Linked? ==> r.href == item.href
  {
    if item.href != "" then Linked(item.href) else Plain
  }

}
