/**
 * The homework list's deadline column: a stored `"YYYY-MM-DD HH:MM"` is shown as
 * `"MM/DD HH:MM"`, with month and day zero-padded and `23:59` when there is no time.
 */
module HomeworkList {
  import opened Wrappers
  import opened JsText
  import opened DateFormat

  const EndOfDay: string := "23:59"

  /** `formatDeadline`: the date part's month and day, padded to two characters, then the time part. */
  function FormatDeadline(deadlineStr: string): string {
    var halves := Split(deadlineStr, {' '});
    var time := if |halves| > 1 then halves[1] else EndOfDay;
    var parts := Split(halves[0], {'-'});
    PadStart2(FieldText(FieldAt(parts, 1))) + "/" + PadStart2(FieldText(FieldAt(parts, 2))) + " " + time
  }

  /** A digit field as the deadline column prints it: its value, padded to two characters. */
  function PaddedField(digits: string): string
    requires AllDigits(digits)
  {
    PadStart2(NatToString(DigitsValue(digits)))
  }

  /** The month and day text of a date with digit fields. */
  lemma DatePartFields(date: string, year: string, month: string, day: string)
    requires date == year + "-" + month + "-" + day && NoneIn(year, {'-'})
    requires month != [] && AllDigits(month) && day != [] && AllDigits(day)
    ensures var parts := Split(date, {'-'});
      PadStart2(FieldText(FieldAt(parts, 1))) == PaddedField(month)
      && PadStart2(FieldText(FieldAt(parts, 2))) == PaddedField(day)
  {
    DigitsHaveNoSeparator(month);
    DigitsHaveNoSeparator(day);
    SplitThree(year, month, day, '-');
    var parts := [year, month, day];
    assert Split(date, {'-'}) == parts;
    DigitField(parts, 1);
    DigitField(parts, 2);
    assert FieldText(FieldAt(parts, 1)) == NatToString(DigitsValue(month));
    assert FieldText(FieldAt(parts, 2)) == NatToString(DigitsValue(day));
  }

  /** A stored deadline with a time shows month and day as numbers padded to two places, then the time. */
  lemma FormatDeadlineOf(year: string, month: string, day: string, time: string)
    requires NoneIn(year, {'-', ' '}) && NoneIn(time, {' '})
    requires month != [] && AllDigits(month) && day != [] && AllDigits(day)
    ensures FormatDeadline(year + "-" + month + "-" + day + " " + time)
      == PaddedField(month) + "/" + PaddedField(day) + " " + time
  {
    var date := year + "-" + month + "-" + day;
    assert NoneIn(date, {' '}) by {
      DigitsHaveNoSeparator(month);
      DigitsHaveNoSeparator(day);
    }
    assert Split(date + " " + time, {' '}) == [date, time] by {
      SplitNoSeparator(time, {' '});
      SplitAfterPiece(date, ' ', time, {' '});
    }
    assert NoneIn(year, {'-'});
    DatePartFields(date, year, month, day);
  }

  /** A deadline without a time part is shown at `23:59`. */
  lemma FormatDeadlineWithoutTime(year: string, month: string, day: string)
    requires NoneIn(year, {'-', ' '})
    requires month != [] && AllDigits(month) && day != [] && AllDigits(day)
    ensures FormatDeadline(year + "-" + month + "-" + day) == PaddedField(month) + "/" + PaddedField(day) + " " + EndOfDay
  {
    var date := year + "-" + month + "-" + day;
    assert NoneIn(date, {' '}) by {
      DigitsHaveNoSeparator(month);
      DigitsHaveNoSeparator(day);
    }
    SplitNoSeparator(date, {' '});
    assert NoneIn(year, {'-'});
    DatePartFields(date, year, month, day);
  }

  /** Month and day below 100 are printed as exactly two digits that read back as their values. */
  lemma PaddedFieldIsTwoDigits(digits: string)
    requires AllDigits(digits) && DigitsValue(digits) < 100
    ensures |PaddedField(digits)| == 2 && AllDigits(PaddedField(digits))
    ensures DigitsValue(PaddedField(digits)) == DigitsValue(digits)
  {
    PaddedTwoDigits(DigitsValue(digits));
  }

  /** The value of a two-digit string. */
  lemma TwoDigitValue(digits: string)
    requires |digits| == 2 && AllDigits(digits)
    ensures DigitsValue(digits) == (digits[0] as int - '0' as int) * 10 + (digits[1] as int - '0' as int)
  {
    var front := digits[..1];
    assert digits[..|digits| - 1] == front;
    assert front[..|front| - 1] == [];
    assert DigitsValue(front) == digits[0] as int - '0' as int;
  }

  /** Tens and units of a number below 100. */
  lemma TensAndUnits(a: nat, b: nat)
    requires a < 10 && b < 10
    ensures (a * 10 + b) / 10 == a && (a * 10 + b) % 10 == b
  {
  }

  /** A number from 10 to 99 prints as its tens digit and its units digit. */
  lemma NatToStringTwoDigits(n: nat)
    requires 10 <= n < 100
    ensures NatToString(n) == [DigitChar(n / 10), DigitChar(n % 10)]
  {
    assert NatToString(n / 10) == [DigitChar(n / 10)];
  }

  /** A digit character is the digit of its own value. */
  lemma DigitCharOf(c: char)
    requires IsDigit(c)
    ensures DigitChar(c as int - '0' as int) == c
  {
  }

  /** A two-digit field with a leading zero prints as its units digit alone. */
  lemma LeadingZeroFieldString(digits: string)
    requires |digits| == 2 && AllDigits(digits) && digits[0] == '0'
    ensures NatToString(DigitsValue(digits)) == digits[1..]
  {
    var b := digits[1] as int - '0' as int;
    assert IsDigit(digits[1]);
    TwoDigitValue(digits);
    assert DigitsValue(digits) == b;
    DigitCharOf(digits[1]);
    assert NatToString(b) == [DigitChar(b)];
  }

  /** A two-digit field without a leading zero prints as written. */
  lemma TensFieldString(digits: string)
    requires |digits| == 2 && AllDigits(digits) && digits[0] != '0'
    ensures NatToString(DigitsValue(digits)) == digits
  {
    var a := digits[0] as int - '0' as int;
    var b := digits[1] as int - '0' as int;
    assert IsDigit(digits[0]) && IsDigit(digits[1]);
    TwoDigitValue(digits);
    TensAndUnits(a, b);
    var n := DigitsValue(digits);
    assert n / 10 == a && n % 10 == b;
    NatToStringTwoDigits(n);
    DigitCharOf(digits[0]);
    DigitCharOf(digits[1]);
  }

  /** A field already written with two digits is printed as written, so `"YYYY-MM-DD HH:MM"` shows as `"MM/DD HH:MM"`. */
  lemma TwoDigitFieldKept(digits: string)
    requires |digits| == 2 && AllDigits(digits)
    ensures PaddedField(digits) == digits
  {
    if digits[0] == '0' {
      LeadingZeroFieldString(digits);
      assert "0" + digits[1..] == digits;
    } else {
      TensFieldString(digits);
    }
  }

  /** `"YYYY-MM-DD HH:MM"` is shown as `"MM/DD HH:MM"`. */
  lemma StoredDeadlineShown(year: string, month: string, day: string, time: string)
    requires NoneIn(year, {'-', ' '}) && NoneIn(time, {' '})
    requires |month| == 2 && AllDigits(month) && |day| == 2 && AllDigits(day)
    ensures FormatDeadline(year + "-" + month + "-" + day + " " + time) == month + "/" + day + " " + time
  {
    FormatDeadlineOf(year, month, day, time);
    TwoDigitFieldKept(month);
    TwoDigitFieldKept(day);
  }
}
