/** Model of the older dividends.py at the repository root: a Dividend built from four strings,
    the parser for INTEL CORP dividends with its two statement layouts, and the exact-sum
    summary. The PLN conversion is the same as in the current version and the Dividend class is
    shared with it; the older class has no file name, which stays "". */
module LegacyDividends {
  import opened Results
  import opened Text
  import opened Dates
  import opened Common
  import opened Stocks
  import opened Dividends
  import Numbers

  /** Dividend(pay_date, gross, tax, net) (dividends.py:11-22): the date is read with
      "%m/%d/%Y" and the amounts with `float`, in that order; the first that fails raises
      ValueError. */
  function NewLegacyDividend(payDate: string, gross: string, tax: string, net: string): (r: Result<DividendRecord>)
    ensures r.Ok? <==>
      ParseDate(payDate, '/').Ok? && Numbers.ParseFloat(gross).Ok? && Numbers.ParseFloat(tax).Ok? && Numbers.ParseFloat(net).Ok?
    ensures r.Ok? ==> r.value == NewDividend(ParseDate(payDate, '/').value, Numbers.ParseFloat(gross).value,
                                             Numbers.ParseFloat(tax).value, Numbers.ParseFloat(net).value)
    ensures r.Err? ==> r.error == ValueError
  {
    var date :- ParseDate(payDate, '/');
    var g :- Numbers.ParseFloat(gross);
    var t :- Numbers.ParseFloat(tax);
    var n :- Numbers.ParseFloat(net);
    Ok(NewDividend(date, g, t, n))
  }

  /** The statement's amounts read back: a date written "MM/DD/YYYY" and amounts written with two
      decimals give that date and those amounts. */
  lemma NewLegacyDividendReads(d: Date, gross: nat, grossCents: nat, tax: nat, taxCents: nat, net: nat, netCents: nat)
    requires ValidDate(d) && grossCents < 100 && taxCents < 100 && netCents < 100
    ensures NewLegacyDividend(FormatDate(d, '/'), Cents(gross, grossCents), Cents(tax, taxCents), Cents(net, netCents))
         == Ok(NewDividend(d, gross as real + grossCents as real / 100.0, tax as real + taxCents as real / 100.0,
                           net as real + netCents as real / 100.0))
  {
    ParseFormatDate(d, '/');
    Numbers.ParseFloatCents(gross, grossCents);
    Numbers.ParseFloatCents(tax, taxCents);
    Numbers.ParseFloatCents(net, netCents);
  }

  /** An amount with two decimals, as the statements print it: Cents(18, 75) is "18.75". */
  function Cents(n: nat, c: nat): string
    requires c < 100
  {
    Numbers.Decimal(n) + "." + [('0' as int + c / 10) as char, ('0' as int + c % 10) as char]
  }

  /** The line that anchors an INTEL CORP dividend. */
  predicate IsIntelDividendAnchor(line: string) {
    Contains(line, "Dividend INTEL CORP")
  }

  /** Python's `s[1:-1]`: the token without its first and last characters, "(18.75)" giving
      "18.75". */
  function Unbracketed(s: string): (r: string)
    ensures |s| >= 2 ==> r == s[1..|s| - 1]
    ensures |s| < 2 ==> r == ""
  {
    DropLast(DropFirst(s, 1), 1)
  }

  /** The layout of statements from late 2023 (dividends.py:80-88): the year is the last token of
      the statement heading, the month/day the first token of the anchor line and gross its last
      token; tax and net are the bracketed last tokens of the next two lines. Missing lines and
      tokens raise IndexError before the constructor reads anything. */
  function LegacyQualifiedDividend(w: seq<string>, yearLine: string): Result<DividendRecord> {
    var year :- LastToken(yearLine);
    var first :- At(w, 0);
    var monthDay :- At(Tokens(first), 0);
    var gross :- LastToken(first);
    var taxLine :- At(w, 1);
    var tax :- LastToken(taxLine);
    var netLine :- At(w, 2);
    var net :- LastToken(netLine);
    NewLegacyDividend(monthDay + "/" + year, gross, Unbracketed(tax), Unbracketed(net))
  }

  /** The layout before September 2023 (dividends.py:89-96): the anchor's MM/DD/YY with the
      century put in, gross and tax the last two tokens of the fourth line, net the last token of
      the sixth without its "$". */
  function LegacyOlderDividend(w: seq<string>): Result<DividendRecord> {
    var first :- At(w, 0);
    var date :- At(Tokens(first), 0);
    var totals :- At(w, 3);
    var gross :- LastToken(totals);
    var tax :- At(Tokens(totals), -2);
    var netLine :- At(w, 5);
    var net :- LastToken(netLine);
    NewLegacyDividend(ExpandYear(date), gross, tax, DropFirst(net, 1))
  }

  /** The dividend read from the lines starting at the anchor. */
  function LegacyDividendFromWindow(w: seq<string>, yearLine: string): Result<DividendRecord>
    requires |w| > 0
  {
    if Contains(w[0], "Qualified") then LegacyQualifiedDividend(w, yearLine) else LegacyOlderDividend(w)
  }

  /** get_dividend_from_text (dividends.py:65-96) on values. */
  function LegacyDividendSpec(text: string): Parsed<DividendRecord> {
    var lines := SplitOn(text, '\n');
    var w := AnchorWindow(lines, |lines|, IsIntelDividendAnchor);
    if w == [] then Absent
    else match LegacyDividendFromWindow(w, LastLine(lines, |lines|, IsStatementLine))
      case Err(e) => Raised(e)
      case Ok(d) => Parsed(d)
  }

  /** The parser finds nothing exactly when no line names an INTEL CORP dividend. */
  lemma LegacyDividendAbsent(text: string)
    ensures var lines := SplitOn(text, '\n');
      LegacyDividendSpec(text).Absent? <==> forall k :: 0 <= k < |lines| ==> !IsIntelDividendAnchor(lines[k])
  {
    AnchorWindowEmpty(SplitOn(text, '\n'), IsIntelDividendAnchor);
  }

  /** get_dividend_from_text (dividends.py:65-96). */
  method GetDividendFromText(text: string) returns (r: Parsed<Dividend>)
    ensures match LegacyDividendSpec(text)
      case Absent => r.Absent?
      case Raised(e) => r == Raised(e)
      case Parsed(d) => r.Parsed? && fresh(r.value) && r.value.Snapshot() == d
  {
    var dividendLines: seq<string> := [];
    var yearLine := "";
    var lines := SplitOn(text, '\n');
    for i := 0 to |lines|
      invariant dividendLines == AnchorWindow(lines, i, IsIntelDividendAnchor)
      invariant yearLine == LastLine(lines, i, IsStatementLine)
    {
      AnchorWindowStep(lines, i, IsIntelDividendAnchor);
      LastLineStep(lines, i, IsStatementLine);
      if IsIntelDividendAnchor(lines[i]) {
        dividendLines := Window(lines, i, 6);
      }
      if IsStatementLine(lines[i]) {
        yearLine := lines[i];
      }
    }
    if dividendLines == [] {
      return Absent;
    }
    var d := LegacyDividendFromWindow(dividendLines, yearLine);
    if d.Err? {
      return Raised(d.error);
    }
    var dividend := new Dividend(d.value.payDate, d.value.usdGross, d.value.usdTax, d.value.usdNet);
    return Parsed(dividend);
  }

  function TaxDueSum(ds: seq<DividendRecord>): real {
    if ds == [] then 0.0 else TaxDueSum(ds[..|ds| - 1]) + ds[|ds| - 1].plnTaxDue
  }

  /** get_dividends_sum_up_lines (dividends.py:99-111): nothing for no dividends; otherwise the
      exact sums of the flat-rate tax, the tax paid and the tax due, with their PIT-38 fields. */
  function DividendsSumUpLines(ds: seq<DividendRecord>): (lines: seq<SummaryLine>)
    ensures ds == [] <==> lines == []
    ensures ds != [] ==>
      && |lines| == 3
      && lines[0] == SummaryLine("DIVIDENDS TAX FLAT-RATE", FlatRateTaxSum(ds), "PIT-38/G/45")
      && lines[1] == SummaryLine("DIVIDENDS TAX PAID", TaxPaidSum(ds), "PIT-38/G/46")
      && lines[2] == SummaryLine("DIVIDENDS TAX DIFF", TaxDueSum(ds), "PIT-38/G/47")
  {
    if ds == [] then []
    else
      [ SummaryLine("DIVIDENDS TAX FLAT-RATE", FlatRateTaxSum(ds), "PIT-38/G/45"),
        SummaryLine("DIVIDENDS TAX PAID", TaxPaidSum(ds), "PIT-38/G/46"),
        SummaryLine("DIVIDENDS TAX DIFF", TaxDueSum(ds), "PIT-38/G/47") ]
  }

  /** When every dividend's tax due is its flat-rate tax less its tax paid (dividends.py:62), the
      total due is the total flat-rate tax less the total paid. */
  lemma {:induction false} TaxDueSumBalanced(ds: seq<DividendRecord>)
    requires forall k :: 0 <= k < |ds| ==> TaxDueBalanced(ds[k])
    ensures TaxDueSum(ds) == FlatRateTaxSum(ds) - TaxPaidSum(ds)
  {
    if ds != [] {
      TaxDueSumBalanced(ds[..|ds| - 1]);
    }
  }

  /** So once every dividend has had its rate inserted, the third summary line is the first less
      the second. */
  lemma SumUpDiffOfConverted(ds: seq<DividendRecord>)
    requires ds != [] && forall k :: 0 <= k < |ds| ==> TaxDueBalanced(ds[k])
    ensures DividendsSumUpLines(ds)[2].value == DividendsSumUpLines(ds)[0].value - DividendsSumUpLines(ds)[1].value
  {
    TaxDueSumBalanced(ds);
  }
}
