/**
 * The argument check and query construction of the command-line ingestion entry point:
 * both dates must look like YYYY-MM-DD, and the comma-separated decision types and the two
 * dates become a Diavgeia query.
 */
module IngestCli {
  import opened Base
  import opened Strs
  import opened DiavgeiaQueries

  /** `/^\d{4}-\d{2}-\d{2}$/`: `\d` is an ASCII digit. */
  predicate IsDateFormat(s: string)
  {
    && |s| == 10
    && AllDigits(s[0..4]) && s[4] == '-'
    && AllDigits(s[5..7]) && s[7] == '-'
    && AllDigits(s[8..10])
  }

  const InvalidStartMessage := "Invalid start date format. Use YYYY-MM-DD."
  const InvalidEndMessage := "Invalid end date format. Use YYYY-MM-DD."

  /** The `check` callback: the start date is checked first. */
  function Check(startDate: string, endDate: string): (r: Outcome)
    ensures r == Pass <==> IsDateFormat(startDate) && IsDateFormat(endDate)
    ensures !IsDateFormat(startDate) ==> r == Fail(Error(InvalidStartMessage))
    ensures IsDateFormat(startDate) && !IsDateFormat(endDate) ==> r == Fail(Error(InvalidEndMessage))
  {
    if !IsDateFormat(startDate) then Fail(Error(InvalidStartMessage))
    else if !IsDateFormat(endDate) then Fail(Error(InvalidEndMessage))
    else Pass
  }

  /** The query built from the accepted arguments. */
  function ArgsQuery(startDate: string, endDate: string, decisionTypes: string): DiavgeiaQuery
  {
    DiavgeiaQuery(Split(decisionTypes, ","), (IssueDateBound(startDate), IssueDateBound(endDate)))
  }

  // ---------------------------------------------------------------------------------
  // The accepted strings are exactly the zero-padded dates.

  function Pow10(w: nat): nat
  {
    if w == 0 then 1 else 10 * Pow10(w - 1)
  }

  /** `n` in `w` digits with leading zeros. */
  function Padded(n: nat, w: nat): (s: string)
    ensures |s| == w && AllDigits(s)
  {
    if w == 0 then "" else Padded(n / 10, w - 1) + [DigitChar(n % 10)]
  }

  function DateText(year: nat, month: nat, day: nat): string
  {
    Padded(year, 4) + "-" + Padded(month, 2) + "-" + Padded(day, 2)
  }

  function ReadDate(s: string): (nat, nat, nat)
    requires IsDateFormat(s)
  {
    (DigitsValue(s[0..4]), DigitsValue(s[5..7]), DigitsValue(s[8..10]))
  }

  lemma {:induction false} PaddedValue(n: nat, w: nat)
    requires n < Pow10(w)
    ensures DigitsValue(Padded(n, w)) == n
  {
    if w > 0 {
      PaddedValue(n / 10, w - 1);
      DigitRoundTrip(n % 10);
      var s := Padded(n, w);
      assert s[..|s| - 1] == Padded(n / 10, w - 1);
    }
  }

  /** Every zero-padded date passes the check's pattern and reads back as itself. */
  lemma DateRoundTrip(year: nat, month: nat, day: nat)
    requires year < 10000 && month < 100 && day < 100
    ensures IsDateFormat(DateText(year, month, day))
    ensures ReadDate(DateText(year, month, day)) == (year, month, day)
  {
    var y, m, d := Padded(year, 4), Padded(month, 2), Padded(day, 2);
    var s := DateText(year, month, day);
    assert s == y + "-" + m + "-" + d;
    assert s[0..4] == y && s[5..7] == m && s[8..10] == d;
    PaddedValue(year, 4);
    PaddedValue(month, 2);
    PaddedValue(day, 2);
  }

  /** Every string the pattern accepts is a zero-padded date. */
  lemma AcceptedIsDate(s: string)
    requires IsDateFormat(s)
    ensures var (y, m, d) := ReadDate(s); y < 10000 && m < 100 && d < 100 && DateText(y, m, d) == s
  {
    var (y, m, d) := ReadDate(s);
    DigitsPadded(s[0..4]);
    DigitsPadded(s[5..7]);
    DigitsPadded(s[8..10]);
    assert s == s[0..4] + "-" + s[5..7] + "-" + s[8..10];
  }

  lemma {:induction false} DigitsPadded(s: string)
    requires AllDigits(s)
    ensures DigitsValue(s) < Pow10(|s|)
    ensures Padded(DigitsValue(s), |s|) == s
  {
    if |s| > 0 {
      var init := s[..|s| - 1];
      assert AllDigits(init);
      DigitsPadded(init);
      var n := DigitsValue(s);
      var c := s[|s| - 1];
      assert n == 10 * DigitsValue(init) + DigitValue(c);
      assert n / 10 == DigitsValue(init) && n % 10 == DigitValue(c);
      assert DigitChar(DigitValue(c)) == c;
      assert s == init + [c];
    }
  }

  /** The decision types reach the query unchanged: read back from the encoded query and
      joined with commas, they give the argument again. */
  lemma ArgsQueryTypes(startDate: string, endDate: string, decisionTypes: string)
    requires '"' !in decisionTypes && '"' !in startDate && '"' !in endDate
    ensures Join(DecodeUids(StringEncode(ArgsQuery(startDate, endDate, decisionTypes))), ",") == decisionTypes
  {
    var q := ArgsQuery(startDate, endDate, decisionTypes);
    SplitAvoids(decisionTypes, ",", '"');
    assert '"' !in IssueDateBound(startDate) && '"' !in IssueDateBound(endDate);
    UidsRoundTrip(q);
    JoinSplit(decisionTypes, ",");
  }
}
