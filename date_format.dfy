/**
 * The short date label the homework list, the lesson list and the news block print:
 * `"YYYY-MM-DD"` split at `-`, each piece read with `Number`, and the month looked up in
 * a table of English abbreviations. The day is printed as a number, so it loses any
 * leading zero, and the year is not used.
 */
module DateFormat {
  import opened Wrappers
  import opened JsText

  const MonthAbbr: seq<string> := ["Jan", "Feb", "Mar", "Apr", "May", "Jun", "Jul", "Aug", "Sep", "Oct", "Nov", "Dec"]

  /** `s.split(sep).map(Number)[i]`, with `None` for `undefined` when there are too few pieces. */
  function FieldAt(parts: seq<string>, i: nat): (r: Option<NumberValue>)
    ensures r.Some? <==> i < |parts|
  {
    if i < |parts| then Some(NumberOf(parts[i])) else None
  }

  /** A field in a template string: `"undefined"` when missing, the number as text otherwise. */
  function FieldText(f: Option<NumberValue>): string {
    match f
    case None => "undefined"
    case Some(v) => NumberToString(v)
  }

  /** `MONTH_ABBR[m - 1]` in a template string: the abbreviation for 1 to 12, `"undefined"` for anything else. */
  function MonthName(m: Option<NumberValue>): (r: string)
    ensures m.Some? && m.value.Finite? && 1 <= m.value.value <= 12 ==> r == MonthAbbr[m.value.value - 1]
    ensures !(m.Some? && m.value.Finite? && 1 <= m.value.value <= 12) ==> r == "undefined"
  {
    match m
    case Some(Finite(k)) => if 1 <= k <= 12 then MonthAbbr[k - 1] else "undefined"
    case _ => "undefined"
  }

  /** The label for date pieces already split at `-`: month abbreviation, a space, the day. */
  function DateLabel(parts: seq<string>): string {
    MonthName(FieldAt(parts, 1)) + " " + FieldText(FieldAt(parts, 2))
  }

  /** `formatDate`. */
  function FormatDate(dateStr: string): string {
    DateLabel(Split(dateStr, {'-'}))
  }

  /** A digit string holds no `-` and no space. */
  lemma DigitsHaveNoSeparator(s: string)
    requires AllDigits(s)
    ensures NoneIn(s, {'-', ' '}) && NoneIn(s, {'-'}) && NoneIn(s, {' '})
  {
  }

  /** Three separator-free pieces joined by one separator split back into the three pieces. */
  lemma SplitThree(a: string, b: string, c: string, sep: char)
    requires NoneIn(a, {sep}) && NoneIn(b, {sep}) && NoneIn(c, {sep})
    ensures Split(a + [sep] + b + [sep] + c, {sep}) == [a, b, c]
  {
    SplitNoSeparator(c, {sep});
    SplitAfterPiece(b, sep, c, {sep});
    assert a + [sep] + b + [sep] + c == a + [sep] + (b + [sep] + c);
    SplitAfterPiece(a, sep, b + [sep] + c, {sep});
  }

  /** A month number from 1 to 12 is named by its abbreviation. */
  lemma MonthNameOf(k: int)
    requires 1 <= k <= 12
    ensures MonthName(Some(Finite(k))) == MonthAbbr[k - 1]
  {
  }

  /** A piece of digits is read as its decimal value. */
  lemma DigitField(parts: seq<string>, i: nat)
    requires i < |parts| && parts[i] != [] && AllDigits(parts[i])
    ensures FieldAt(parts, i) == Some(Finite(DigitsValue(parts[i])))
  {
    NumberOfDigits(parts[i]);
  }

  /** The label of pieces whose month reads as `m` from 1 to 12 and whose day reads as `d`. */
  lemma LabelOfFields(parts: seq<string>, m: int, d: nat)
    requires FieldAt(parts, 1) == Some(Finite(m)) && FieldAt(parts, 2) == Some(Finite(d))
    requires 1 <= m <= 12
    ensures DateLabel(parts) == MonthAbbr[m - 1] + " " + NatToString(d)
  {
    MonthNameOf(m);
    assert FieldText(Some(Finite(d))) == IntToString(d);
  }

  /**
   * A date written with digit fields is labelled with the month's abbreviation and the day's
   * value, whatever the year is and however many leading zeros the day has.
   */
  lemma FormatDateOf(year: string, month: string, day: string)
    requires NoneIn(year, {'-'})
    requires month != [] && AllDigits(month) && day != [] && AllDigits(day)
    requires 1 <= DigitsValue(month) <= 12
    ensures FormatDate(year + "-" + month + "-" + day) == MonthAbbr[DigitsValue(month) - 1] + " " + NatToString(DigitsValue(day))
  {
    DigitsHaveNoSeparator(month);
    DigitsHaveNoSeparator(day);
    SplitThree(year, month, day, '-');
    var parts := [year, month, day];
    DigitField(parts, 1);
    DigitField(parts, 2);
    LabelOfFields(parts, DigitsValue(month), DigitsValue(day));
  }

  /** The year never changes the label. */
  lemma {:induction false} YearIgnored(year1: string, year2: string, rest: string)
    requires NoneIn(year1, {'-'}) && NoneIn(year2, {'-'})
    ensures FormatDate(year1 + "-" + rest) == FormatDate(year2 + "-" + rest)
  {
    SplitAfterPiece(year1, '-', rest, {'-'});
    SplitAfterPiece(year2, '-', rest, {'-'});
  }

  /** A zero-padded day loses its zero: `"2026-02-05"` is labelled like `"2026-02-5"`, as `"Feb 5"`. */
  lemma LeadingZeroDropped(year: string, month: string, day: string)
    requires NoneIn(year, {'-'})
    requires month != [] && AllDigits(month) && day != [] && AllDigits(day)
    requires 1 <= DigitsValue(month) <= 12
    ensures FormatDate(year + "-" + month + "-" + ("0" + day)) == FormatDate(year + "-" + month + "-" + day)
  {
    DigitsValueLeadingZero(day);
    FormatDateOf(year, month, "0" + day);
    FormatDateOf(year, month, day);
  }
}
