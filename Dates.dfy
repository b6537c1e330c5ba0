/** Calendar dates as the parsers read them: Python's `datetime.strptime` with the formats
    "%m-%d-%Y" and "%m/%d/%Y", and the statements' two-digit-year expansion. The rate caches
    count dates in days instead (type Day). */
module Dates {
  import opened Results
  import Text
  import Numbers

  datatype Date = Date(year: int, month: int, day: int)

  /** A calendar date counted in days; one day earlier is one less. */
  type Day = int

  /** `datetime.fromtimestamp(0)` on a machine whose local time is not behind UTC. */
  const EPOCH := Date(1970, 1, 1)

  predicate IsLeapYear(y: int) {
    y % 4 == 0 && (y % 100 != 0 || y % 400 == 0)
  }

  function DaysInMonth(y: int, m: int): int
    requires 1 <= m <= 12
  {
    if m == 2 then (if IsLeapYear(y) then 29 else 28)
    else if m == 4 || m == 6 || m == 9 || m == 11 then 30
    else 31
  }

  /** A date that Python's `datetime` can hold. */
  predicate ValidDate(d: Date) {
    1 <= d.year <= 9999 && 1 <= d.month <= 12 && 1 <= d.day <= DaysInMonth(d.year, d.month)
  }

  /** What strptime's %m accepts: "1".."9" or "01".."12". */
  predicate MonthField(s: string) {
    Numbers.AllDigits(s) && (|s| == 1 || |s| == 2) && 1 <= Numbers.DigitsValue(s) <= 12
  }

  /** What strptime's %d accepts: "1".."9" or "01".."31". */
  predicate DayField(s: string) {
    Numbers.AllDigits(s) && (|s| == 1 || |s| == 2) && 1 <= Numbers.DigitsValue(s) <= 31
  }

  /** What strptime's %Y accepts: exactly four digits. */
  predicate YearField(s: string) {
    Numbers.AllDigits(s) && |s| == 4
  }

  /** `datetime.strptime(s, "%m" + sep + "%d" + sep + "%Y")`; a string that does not match, or
      names a day the month does not have, raises ValueError. */
  function ParseDate(s: string, sep: char): Result<Date> {
    var parts := Text.SplitOn(s, sep);
    if |parts| == 3 && MonthField(parts[0]) && DayField(parts[1]) && YearField(parts[2]) then
      var d := Date(Numbers.DigitsValue(parts[2]), Numbers.DigitsValue(parts[0]), Numbers.DigitsValue(parts[1]));
      if ValidDate(d) then Ok(d) else Err(ValueError)
    else Err(ValueError)
  }

  function Digit(n: nat): (c: char)
    requires n < 10
    ensures Numbers.IsDigit(c)
  {
    ('0' as int + n) as char
  }

  /** n < 100 in two digits. */
  function Pad2(n: nat): (s: string)
    requires n < 100
    ensures |s| == 2 && Numbers.AllDigits(s)
  {
    [Digit(n / 10), Digit(n % 10)]
  }

  /** n < 10000 in four digits. */
  function Pad4(n: nat): (s: string)
    requires n < 10000
    ensures |s| == 4 && Numbers.AllDigits(s)
  {
    Pad2(n / 100) + Pad2(n % 100)
  }

  lemma Pad2Value(n: nat)
    requires n < 100
    ensures Numbers.DigitsValue(Pad2(n)) == n
  {
    var s := Pad2(n);
    assert s[0] as int - '0' as int == n / 10;
    assert s[1] as int - '0' as int == n % 10;
    assert s[..1] == [s[0]];
    assert [s[0]][..0] == [];
    assert Numbers.DigitsValue([s[0]]) == n / 10;
  }

  lemma Pad4Value(n: nat)
    requires n < 10000
    ensures Numbers.DigitsValue(Pad4(n)) == n
  {
    var s := Pad4(n);
    var hi, lo := Pad2(n / 100), Pad2(n % 100);
    Pad2Value(n / 100);
    assert s[..3] == hi + [lo[0]];
    assert s[..3][..2] == hi;
    assert Numbers.DigitsValue(hi + [lo[0]]) == 10 * (n / 100) + n % 100 / 10;
  }

  /** `d.strftime("%m" + sep + "%d" + sep + "%Y")`. */
  function FormatDate(d: Date, sep: char): string
    requires ValidDate(d)
  {
    Pad2(d.month) + [sep] + Pad2(d.day) + [sep] + Pad4(d.year)
  }

  /** strptime reads back what strftime writes, for a separator that is not a digit. */
  lemma ParseFormatDate(d: Date, sep: char)
    requires ValidDate(d) && !Numbers.IsDigit(sep)
    ensures ParseDate(FormatDate(d, sep), sep) == Ok(d)
  {
    var m, dd, y := Pad2(d.month), Pad2(d.day), Pad4(d.year);
    assert sep !in m && sep !in dd && sep !in y;
    assert [m, dd, y][1..] == [dd, y];
    assert [dd, y][1..] == [y];
    assert Text.Join([y], sep) == y;
    assert Text.Join([dd, y], sep) == dd + [sep] + y;
    assert Text.Join([m, dd, y], sep) == m + [sep] + (dd + [sep] + y);
    assert Text.Join([m, dd, y], sep) == FormatDate(d, sep);
    Text.SplitOnJoin([m, dd, y], sep);
    Pad2Value(d.month);
    Pad2Value(d.day);
    Pad4Value(d.year);
  }

  /** The statements' year expansion `f"{s[:-2]}20{s[-2:]}"`: "05/10/22" becomes "05/10/2022". */
  function ExpandYear(s: string): string {
    Text.DropLast(s, 2) + "20" + Text.TakeLast(s, 2)
  }

  /** A date written "MM/DD/YY" with a year of this century expands and parses to itself. */
  lemma ExpandYearParses(d: Date)
    requires ValidDate(d) && 2000 <= d.year <= 2099
    ensures ParseDate(ExpandYear(Pad2(d.month) + "/" + Pad2(d.day) + "/" + Pad2(d.year - 2000)), '/') == Ok(d)
  {
    var prefix := Pad2(d.month) + "/" + Pad2(d.day) + "/";
    var yy := Pad2(d.year - 2000);
    var s := prefix + yy;
    assert Text.DropLast(s, 2) == prefix;
    assert Text.TakeLast(s, 2) == yy;
    assert Pad4(d.year) == "20" + yy by {
      assert d.year / 100 == 20;
      assert Pad2(20) == "20";
    }
    assert ExpandYear(s) == FormatDate(d, '/');
    ParseFormatDate(d, '/');
  }
}
