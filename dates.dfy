/** Calendar dates and PHP's `format('Y-m-d')`. */
module Dates {
  import opened Base
  import opened Decimal

  datatype Date = Date(year: nat, month: nat, day: nat)

  predicate IsLeapYear(y: nat)
  {
    (y % 4 == 0 && y % 100 != 0) || y % 400 == 0
  }

  function DaysInMonth(y: nat, m: nat): nat
  {
    if m == 2 then (if IsLeapYear(y) then 29 else 28)
    else if m == 4 || m == 6 || m == 9 || m == 11 then 30
    else 31
  }

  /** A day of the proleptic Gregorian calendar. */
  predicate ValidDate(d: Date)
  {
    1 <= d.month <= 12 && 1 <= d.day <= DaysInMonth(d.year, d.month)
  }

  /** 'Y-m-d': the year in at least four digits, month and day in two,
      separated by '-'. */
  function FormatYmd(d: Date): string
  {
    ZeroPad(NatToString(d.year), 4) + "-" + ZeroPad(NatToString(d.month), 2) + "-" +
      ZeroPad(NatToString(d.day), 2)
  }

  /** Reads a 'Y-m-d' text back: digits up to the first '-', then exactly
      two digits, '-', two digits. */
  function ParseYmd(s: string): Option<Date>
  {
    var k := FirstIndexOf(s, '-');
    if k == |s| || k == 0 then None
    else
      var year, rest := s[..k], s[k + 1..];
      if |rest| != 5 || rest[2] != '-' then None
      else if !AllDigits(year) || !AllDigits(rest[..2]) || !AllDigits(rest[3..]) then None
      else Some(Date(ParseDigits(year), ParseDigits(rest[..2]), ParseDigits(rest[3..])))
  }

  lemma FormatYmdShape(d: Date)
    requires ValidDate(d)
    ensures var y := ZeroPad(NatToString(d.year), 4);
      && AllDigits(y) && 4 <= |y|
      && FormatYmd(d) == y + "-" + ZeroPad(NatToString(d.month), 2) + "-" + ZeroPad(NatToString(d.day), 2)
      && |ZeroPad(NatToString(d.month), 2)| == 2 && |ZeroPad(NatToString(d.day), 2)| == 2
  {
  }

  lemma {:induction false} ParseYmdOfParts(y: string, m: string, dd: string)
    requires 0 < |y| && AllDigits(y)
    requires |m| == 2 && AllDigits(m) && |dd| == 2 && AllDigits(dd)
    ensures ParseYmd(y + "-" + m + "-" + dd) == Some(Date(ParseDigits(y), ParseDigits(m), ParseDigits(dd)))
  {
    var s := y + "-" + m + "-" + dd;
    assert s[|y|] == '-';
    forall j | 0 <= j < |y|
      ensures s[j] != '-'
    {
      assert s[j] == y[j] && IsDigit(y[j]);
    }
    FirstIndexOfAt(s, '-', |y|);
    assert s[..|y|] == y;
    var rest := s[|y| + 1..];
    assert rest == m + "-" + dd;
    assert rest[..2] == m && rest[3..] == dd;
  }

  /** The due date text determines the date it was made from. */
  lemma {:induction false} FormatYmdRoundTrip(d: Date)
    requires ValidDate(d)
    ensures ParseYmd(FormatYmd(d)) == Some(d)
  {
    FormatYmdShape(d);
    ParseYmdOfParts(ZeroPad(NatToString(d.year), 4), ZeroPad(NatToString(d.month), 2),
                    ZeroPad(NatToString(d.day), 2));
    ParseZeroPad(NatToString(d.year), 4);
    ParseZeroPad(NatToString(d.month), 2);
    ParseZeroPad(NatToString(d.day), 2);
    ParseNatToString(d.year);
    ParseNatToString(d.month);
    ParseNatToString(d.day);
  }
}
