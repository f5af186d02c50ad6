/**
 * Year-month stamps `YYYY-MM`, the format of the end-of-life tables and of the clock
 * reading the version check compares them with.
 */
module YearMonth {
  import opened Text

  /** A zero-padded `YYYY-MM` stamp whose month lies between 01 and 12. */
  predicate IsYearMonth(s: string) {
    && |s| == 7
    && AllDigits(s[..4])
    && s[4] == '-'
    && AllDigits(s[5..])
    && 1 <= Value(s[5..]) <= 12
  }

  function Year(s: string): nat
    requires IsYearMonth(s)
  {
    Value(s[..4])
  }

  function Month(s: string): nat
    requires IsYearMonth(s)
  {
    Value(s[5..])
  }

  /** The chronological position of a stamp: months elapsed since January of year 0. */
  function MonthIndex(s: string): nat
    requires IsYearMonth(s)
  {
    Year(s) * 12 + Month(s) - 1
  }

  /** For well-formed stamps, JavaScript's string comparison is chronological comparison. */
  lemma LexOrderIsChronological(a: string, b: string)
    requires IsYearMonth(a) && IsYearMonth(b)
    ensures LexLess(a, b) <==> MonthIndex(a) < MonthIndex(b)
  {
    assert a == a[..4] + a[4..] && b == b[..4] + b[4..];
    LexLessConcat(a[..4], b[..4], a[4..], b[4..]);
    assert a[4..][1..] == a[5..] && b[4..][1..] == b[5..];
    assert LexLess(a[4..], b[4..]) == LexLess(a[5..], b[5..]);
    DigitsLexOrder(a[..4], b[..4]);
    DigitsLexOrder(a[5..], b[5..]);
    DigitsValueInjective(a[..4], b[..4]);
  }

  /** `s.padStart(width, fill)` for a one-character fill. */
  function PadStart(s: string, width: nat, fill: char): (r: string)
    ensures |r| == if |s| >= width then |s| else width
    ensures r[|r| - |s|..] == s
    ensures forall i :: 0 <= i < |r| - |s| ==> r[i] == fill
    decreases width - |s|
  {
    if |s| >= width then s else PadStart([fill] + s, width, fill)
  }

  /**
   * The clock reading: UTC year, then the zero-based UTC month plus one, padded
   * to two digits, joined by '-'.
   */
  function Format(year: nat, month0: nat): string {
    NatToString(year) + "-" + PadStart(NatToString(month0 + 1), 2, '0')
  }

  /** Padding a one- or two-digit string to two digits keeps the number it denotes. */
  lemma PadTwoDigits(m: string)
    requires AllDigits(m) && 1 <= |m| <= 2
    ensures |PadStart(m, 2, '0')| == 2 && AllDigits(PadStart(m, 2, '0'))
    ensures Value(PadStart(m, 2, '0')) == Value(m)
  {
    var pm := PadStart(m, 2, '0');
    if |m| == 1 {
      assert pm == ['0'] + m;
      ValueFront(pm);
      assert pm[1..] == m;
    }
  }

  /** For a four-digit year, the clock reading is a well-formed stamp of that year and month. */
  lemma FormatIsYearMonth(year: nat, month0: nat)
    requires 1000 <= year <= 9999 && month0 < 12
    ensures IsYearMonth(Format(year, month0))
    ensures Year(Format(year, month0)) == year && Month(Format(year, month0)) == month0 + 1
  {
    var y, m := NatToString(year), NatToString(month0 + 1);
    NatToStringLength(year, 3);
    NatToStringValue(year);
    NatToStringValue(month0 + 1);
    if month0 + 1 < 10 {
      NatToStringLength(month0 + 1, 0);
    } else {
      NatToStringLength(month0 + 1, 1);
    }
    var pm := PadStart(m, 2, '0');
    PadTwoDigits(m);
    var s := Format(year, month0);
    assert s == y + "-" + pm;
    assert s[..4] == y && s[5..] == pm && s[4] == '-';
  }
}
