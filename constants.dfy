/** The worker's constants: its own version and the Node.js end-of-life tables. */
module Constants {
  import opened Text
  import opened YearMonth

  /** The worker's package version. */
  const Version: string := "3.11.1"

  /** Month in which each supported Node.js major version reaches end of life. */
  const NodeEolDates: map<string, string> := map[
    "v14" := "2023-04",
    "v16" := "2023-09",
    "v18" := "2025-04",
    "v20" := "2026-04",
    "v22" := "2027-04",
    "v24" := "2028-04"
  ]

  /** Month from which the worker warns that a Node.js major version nears end of life. */
  const NodeEolWarningDates: map<string, string> := map[
    "v14" := "2022-10",
    "v16" := "2023-03",
    "v18" := "2024-10",
    "v20" := "2025-10",
    "v22" := "2026-10",
    "v24" := "2027-10"
  ]

  /** The documentation link quoted in every version message. */
  const UpgradeUrl: string := "https://aka.ms/functions-nodejs-supported-versions"

  /** The supported major versions, v14 to v24. */
  const SupportedMajors: set<string> := {"v14", "v16", "v18", "v20", "v22", "v24"}

  /** Both tables list exactly the supported majors. */
  lemma TablesShareKeys()
    ensures NodeEolDates.Keys == NodeEolWarningDates.Keys == SupportedMajors
  {
  }

  /** Every date in both tables is a zero-padded `YYYY-MM` stamp. */
  lemma DatesWellFormed(major: string)
    requires major in SupportedMajors
    ensures IsYearMonth(NodeEolDates[major]) && IsYearMonth(NodeEolWarningDates[major])
  {
    var e, w := NodeEolDates[major], NodeEolWarningDates[major];
    assert e[5..] == [e[5], e[6]] && w[5..] == [w[5], w[6]];
    assert Value([e[5]]) == DigitValue(e[5]) && Value([w[5]]) == DigitValue(w[5]);
    assert [e[5], e[6]][..1] == [e[5]] && [w[5], w[6]][..1] == [w[5]];
  }

  /** Every warning date sorts strictly before the end-of-life date. */
  lemma WarningSortsBeforeEol(major: string)
    requires major in SupportedMajors
    ensures LexLess(NodeEolWarningDates[major], NodeEolDates[major])
  {
    var warn, eol := NodeEolWarningDates[major], NodeEolDates[major];
    if major == "v14" {
      assert warn == "2022-10" && eol == "2023-04";
      LexLessAt(warn, eol, 3);
    } else if major == "v16" {
      assert warn == "2023-03" && eol == "2023-09";
      LexLessAt(warn, eol, 6);
    } else if major == "v18" {
      assert warn == "2024-10" && eol == "2025-04";
      LexLessAt(warn, eol, 3);
    } else if major == "v20" {
      assert warn == "2025-10" && eol == "2026-04";
      LexLessAt(warn, eol, 3);
    } else if major == "v22" {
      assert warn == "2026-10" && eol == "2027-04";
      LexLessAt(warn, eol, 3);
    } else {
      assert major == "v24";
      assert warn == "2027-10" && eol == "2028-04";
      LexLessAt(warn, eol, 3);
    }
  }

  /** Every warning date lies strictly before the end-of-life date, so the warning is reachable. */
  lemma WarningPrecedesEol(major: string)
    requires major in SupportedMajors
    ensures IsYearMonth(NodeEolWarningDates[major]) && IsYearMonth(NodeEolDates[major])
    ensures MonthIndex(NodeEolWarningDates[major]) < MonthIndex(NodeEolDates[major])
  {
    DatesWellFormed(major);
    WarningSortsBeforeEol(major);
    LexOrderIsChronological(NodeEolWarningDates[major], NodeEolDates[major]);
  }
}
