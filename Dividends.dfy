/** Model of src/etrade_tax_poland/dividends.py: the Dividend object and its PLN conversion, the
    stock-dividend parser with its two statement layouts, the treasury-liquidity-fund parser, and
    the dividend tax summary. */
module Dividends {
  import opened Results
  import opened Text
  import opened Dates
  import opened Common
  import opened Stocks

  datatype DividendRecord = DividendRecord(
    payDate: Date, usdGross: real, usdTax: real, usdNet: real,
    ratioDate: Day, ratioValue: real,
    plnGross: real, flatRateTax: real, plnTaxPaid: real, plnTaxDue: real, file: string)

  /** Dividend(pay_date, gross, tax, net) (dividends.py:13-25): the PLN fields start at 0. */
  function NewDividend(payDate: Date, gross: real, tax: real, net: real): DividendRecord {
    DividendRecord(payDate, gross, tax, net, 0, 0.0, 0.0, 0.0, 0.0, 0.0, "")
  }

  /** A USD amount in PLN at the given rate, unrounded. */
  function InPln(usd: real, ratio: real): real {
    usd * ratio
  }

  /** The tax still due is the flat-rate tax less the tax paid abroad. */
  predicate TaxDueBalanced(d: DividendRecord) {
    d.plnTaxDue == d.flatRateTax - d.plnTaxPaid
  }

  /** insert_currencies_ratio on values (dividends.py:64-71): the three PLN amounts are rounded
      to hundredths one after the other, and the tax due is the difference of the two taxes, which
      may be negative. The USD amounts, date and file stay. */
  function Converted(d: DividendRecord, ratioDate: Day, ratioValue: real): (r: DividendRecord)
    ensures TaxDueBalanced(r)
    ensures r.ratioDate == ratioDate && r.ratioValue == ratioValue
    ensures r.payDate == d.payDate && r.usdGross == d.usdGross && r.usdTax == d.usdTax
    ensures r.usdNet == d.usdNet && r.file == d.file
  {
    var plnGross := RoundCents(InPln(d.usdGross, ratioValue));
    var flatRateTax := RoundCents(plnGross * TAX_PL);
    var plnTaxPaid := RoundCents(InPln(d.usdTax, ratioValue));
    d.(ratioDate := ratioDate, ratioValue := ratioValue, plnGross := plnGross,
       flatRateTax := flatRateTax, plnTaxPaid := plnTaxPaid, plnTaxDue := flatRateTax - plnTaxPaid)
  }

  /** The PLN gross is the USD gross at the rate to the nearest hundredth; the flat-rate tax is 19%
      of that rounded PLN gross, not of the exact one, to the nearest hundredth; the tax paid is the
      USD tax at the rate to the nearest hundredth. */
  lemma ConvertedRounding(d: DividendRecord, ratioDate: Day, ratioValue: real)
    ensures var r := Converted(d, ratioDate, ratioValue);
      && d.usdGross * ratioValue - 0.005 <= r.plnGross <= d.usdGross * ratioValue + 0.005 && IsCents(r.plnGross)
      && r.plnGross * TAX_PL - 0.005 <= r.flatRateTax <= r.plnGross * TAX_PL + 0.005 && IsCents(r.flatRateTax)
      && d.usdTax * ratioValue - 0.005 <= r.plnTaxPaid <= d.usdTax * ratioValue + 0.005 && IsCents(r.plnTaxPaid)
  {
  }

  /** A dividend with no tax withheld has nothing paid, so all of its flat-rate tax is due. */
  lemma UntaxedDividendOwesFlatRate(d: DividendRecord, ratioDate: Day, ratioValue: real)
    requires d.usdTax == 0.0
    ensures Converted(d, ratioDate, ratioValue).plnTaxPaid == 0.0
    ensures Converted(d, ratioDate, ratioValue).plnTaxDue == Converted(d, ratioDate, ratioValue).flatRateTax
  {
    RoundCentsOfCents(0.0);
  }

  /** A dividend payment (dividends.py:10-71). */
  class Dividend {
    var payDate: Date
    var usdGross: real
    var usdTax: real
    var usdNet: real
    var ratioDate: Day
    var ratioValue: real
    var plnGross: real
    var flatRateTax: real
    var plnTaxPaid: real
    var plnTaxDue: real
    var file: string

    function Snapshot(): DividendRecord
      reads this
    {
      DividendRecord(payDate, usdGross, usdTax, usdNet, ratioDate, ratioValue,
                     plnGross, flatRateTax, plnTaxPaid, plnTaxDue, file)
    }

    constructor (payDate: Date, gross: real, tax: real, net: real)
      ensures Snapshot() == NewDividend(payDate, gross, tax, net)
    {
      this.payDate, usdGross, usdTax, usdNet := payDate, gross, tax, net;
      ratioDate, ratioValue := 0, 0.0;
      plnGross, flatRateTax, plnTaxPaid, plnTaxDue, file := 0.0, 0.0, 0.0, 0.0, "";
    }

    /** insert_currencies_ratio (dividends.py:64-71). */
    method InsertCurrenciesRatio(ratioDate: Day, ratioValue: real)
      modifies this
      ensures Snapshot() == Converted(old(Snapshot()), ratioDate, ratioValue)
    {
      var gross := RoundCents(InPln(usdGross, ratioValue));
      var flat := RoundCents(gross * TAX_PL);
      var paid := RoundCents(InPln(usdTax, ratioValue));
      this.ratioDate, this.ratioValue := ratioDate, ratioValue;
      plnGross, flatRateTax, plnTaxPaid, plnTaxDue := gross, flat, paid, flat - paid;
    }
  }

  // ---------------------------------------------------------------- Stock dividend

  /** A line that anchors a stock dividend: it names a dividend but is neither the notice of the
      next one nor a liquidity-fund dividend. */
  predicate IsStockDividendAnchor(line: string) {
    Contains(line, "Dividend ") && !Contains(line, "Next Dividend Payable") && !Contains(line, "LIQUIDITY")
  }

  /** The statement heading whose last token is the statement's year. */
  predicate IsStatementLine(line: string) {
    Contains(line, "Account DetailCLIENT STATEMENT")
  }

  /** The layout of statements from late 2023 (dividends.py:90-99): the date is the month/day of
      the anchor line with the statement's year, and gross, tax and net are the last tokens of
      the first three lines. */
  function QualifiedDividend(w: seq<string>, yearLine: string, cashFloat: CashFloat): Result<DividendRecord> {
    var first :- At(w, 0);
    var monthDay :- At(Tokens(first), 0);
    var year :- LastToken(yearLine);
    var payDate :- ParseDate(monthDay + "/" + year, '/');
    var gross :- Amount(first, cashFloat);
    var taxLine :- At(w, 1);
    var tax :- Amount(taxLine, cashFloat);
    var netLine :- At(w, 2);
    var net :- Amount(netLine, cashFloat);
    Ok(NewDividend(payDate, gross, tax, net))
  }

  /** The older layout (dividends.py:100-112): the date is the anchor's MM/DD/YY with the century
      put in, gross and tax are the last and second-to-last tokens of the fourth line and net is
      the last token of the sixth. */
  function OlderDividend(w: seq<string>, cashFloat: CashFloat): Result<DividendRecord> {
    var first :- At(w, 0);
    var date :- At(Tokens(first), 0);
    var payDate :- ParseDate(ExpandYear(date), '/');
    var totals :- At(w, 3);
    var gross :- Amount(totals, cashFloat);
    var taxToken :- At(Tokens(totals), -2);
    var netLine :- At(w, 5);
    var net :- Amount(netLine, cashFloat);
    Ok(NewDividend(payDate, gross, cashFloat(taxToken), net))
  }

  /** The dividend read from the lines starting at the anchor. */
  function DividendFromWindow(w: seq<string>, yearLine: string, cashFloat: CashFloat): Result<DividendRecord>
    requires |w| > 0
  {
    if Contains(w[0], "Qualified") then QualifiedDividend(w, yearLine, cashFloat) else OlderDividend(w, cashFloat)
  }

  /** The last of the first n lines that matches, or "" when none does: what a loop that
      overwrites a variable with each matching line holds after n lines. */
  function LastLine(lines: seq<string>, n: nat, matches: string -> bool): string
    requires n <= |lines|
  {
    match LastMatch(lines[..n], 0, matches)
    case None => ""
    case Some(k) => lines[k]
  }

  /** The up to six lines from the last anchor among the first n lines, or none. */
  function AnchorWindow(lines: seq<string>, n: nat, anchors: string -> bool): seq<string>
    requires n <= |lines|
  {
    match LastMatch(lines[..n], 0, anchors)
    case None => []
    case Some(j) => Window(lines, j, 6)
  }

  lemma LastLineStep(lines: seq<string>, i: nat, matches: string -> bool)
    requires i < |lines|
    ensures LastLine(lines, i + 1, matches) == if matches(lines[i]) then lines[i] else LastLine(lines, i, matches)
  {
    assert lines[..i + 1] == lines[..i] + [lines[i]];
    LastMatchSnoc(lines[..i], lines[i], 0, matches);
  }

  lemma AnchorWindowStep(lines: seq<string>, i: nat, anchors: string -> bool)
    requires i < |lines|
    ensures AnchorWindow(lines, i + 1, anchors) == if anchors(lines[i]) then Window(lines, i, 6) else AnchorWindow(lines, i, anchors)
  {
    assert lines[..i + 1] == lines[..i] + [lines[i]];
    LastMatchSnoc(lines[..i], lines[i], 0, anchors);
  }

  /** get_stock_dividend_from_text (dividends.py:74-114) on values. */
  function StockDividendSpec(text: string, cashFloat: CashFloat): Parsed<DividendRecord> {
    var lines := SplitOn(text, '\n');
    var w := AnchorWindow(lines, |lines|, IsStockDividendAnchor);
    if w == [] then Absent
    else match DividendFromWindow(w, LastLine(lines, |lines|, IsStatementLine), cashFloat)
      case Err(e) => Raised(e)
      case Ok(d) => Parsed(d)
  }

  lemma AnchorWindowEmpty(lines: seq<string>, anchors: string -> bool)
    ensures AnchorWindow(lines, |lines|, anchors) == [] <==> forall k :: 0 <= k < |lines| ==> !anchors(lines[k])
  {
    assert lines[..|lines|] == lines;
    var m := LastMatch(lines, 0, anchors);
    if m.Some? {
      assert |Window(lines, m.value, 6)| > 0;
    }
  }

  /** The parser finds nothing exactly when no line anchors a stock dividend. */
  lemma StockDividendAbsent(text: string, cashFloat: CashFloat)
    ensures var lines := SplitOn(text, '\n');
      StockDividendSpec(text, cashFloat).Absent? <==> forall k :: 0 <= k < |lines| ==> !IsStockDividendAnchor(lines[k])
  {
    AnchorWindowEmpty(SplitOn(text, '\n'), IsStockDividendAnchor);
  }

  /** Otherwise it reads the window of up to six lines that starts at the last anchor, which
      never contains "LIQUIDITY", with the year from the last statement heading anywhere in the
      text, after the anchor included. */
  lemma StockDividendFromLastAnchor(lines: seq<string>, j: nat)
    requires j < |lines| && IsStockDividendAnchor(lines[j])
    requires forall k :: j < k < |lines| ==> !IsStockDividendAnchor(lines[k])
    ensures AnchorWindow(lines, |lines|, IsStockDividendAnchor) == Window(lines, j, 6)
    ensures |Window(lines, j, 6)| > 0 && !Contains(Window(lines, j, 6)[0], "LIQUIDITY")
  {
    assert lines[..|lines|] == lines;
    var m := LastMatch(lines, 0, IsStockDividendAnchor);
    assert m.Some?;
  }

  /** get_stock_dividend_from_text (dividends.py:74-114). */
  method GetStockDividendFromText(text: string, cashFloat: CashFloat) returns (r: Parsed<Dividend>)
    ensures match StockDividendSpec(text, cashFloat)
      case Absent => r.Absent?
      case Raised(e) => r == Raised(e)
      case Parsed(d) => r.Parsed? && fresh(r.value) && r.value.Snapshot() == d
  {
    var dividendLines: seq<string> := [];
    var yearLine := "";
    var lines := SplitOn(text, '\n');
    for i := 0 to |lines|
      invariant dividendLines == AnchorWindow(lines, i, IsStockDividendAnchor)
      invariant yearLine == LastLine(lines, i, IsStatementLine)
    {
      AnchorWindowStep(lines, i, IsStockDividendAnchor);
      LastLineStep(lines, i, IsStatementLine);
      if IsStockDividendAnchor(lines[i]) {
        dividendLines := Window(lines, i, 6);
      }
      if IsStatementLine(lines[i]) {
        yearLine := lines[i];
      }
    }
    if dividendLines == [] {
      return Absent;
    }
    var d := DividendFromWindow(dividendLines, yearLine, cashFloat);
    if d.Err? {
      return Raised(d.error);
    }
    var dividend := new Dividend(d.value.payDate, d.value.usdGross, d.value.usdTax, d.value.usdNet);
    return Parsed(dividend);
  }

  // ---------------------------------------------------------------- Treasury liquidity fund

  predicate IsLiquidityAnchor(line: string) { Contains(line, "Dividend TREASURY LIQUIDITY FUND") }
  predicate IsPriorYearLine(line: string) { Contains(line, "Transaction Reportable for the Prior Year") }

  /** The amount of the liquidity dividend anchored at line i: the anchor's last token in the
      "Prior Year" variant, and otherwise the text after the last "PAYMENT" on the next line, which
      must exist. */
  function LiquidityAmount(lines: seq<string>, i: nat, cashFloat: CashFloat): Result<real>
    requires i < |lines|
  {
    if IsPriorYearLine(lines[i]) then Amount(lines[i], cashFloat)
    else
      var next :- At(lines, i + 1);
      Ok(cashFloat(AfterLast(next, "PAYMENT")))
  }

  /** The dividend anchored at line i, with the month/day of the anchor and the year in force:
      tax 0 and net equal to gross. */
  function LiquidityDividend(lines: seq<string>, i: nat, year: string, cashFloat: CashFloat): (r: Result<DividendRecord>)
    requires i < |lines|
    ensures r.Ok? ==> r.value == NewDividend(r.value.payDate, r.value.usdGross, 0.0, r.value.usdGross)
  {
    var monthDay :- At(Tokens(lines[i]), 0);
    var payDate :- ParseDate(monthDay + "/" + year, '/');
    var amount :- LiquidityAmount(lines, i, cashFloat);
    Ok(NewDividend(payDate, amount, 0.0, amount))
  }

  /** The loop variables of get_liquidity_dividends_from_text. */
  datatype LiquidityState = LiquidityState(year: string, divs: seq<DividendRecord>)

  /** One pass of get_liquidity_dividends_from_text's loop (dividends.py:123-136) over line i: a
      statement heading sets the year, and an anchor then appends its dividend. */
  function LiquidityStep(lines: seq<string>, i: nat, st: LiquidityState, cashFloat: CashFloat): (r: Result<LiquidityState>)
    requires i < |lines|
    ensures r.Ok? && IsStatementLine(lines[i]) ==> LastToken(lines[i]) == Ok(r.value.year)
    ensures r.Ok? && !IsStatementLine(lines[i]) ==> r.value.year == st.year
    ensures r.Ok? && IsLiquidityAnchor(lines[i]) ==>
      LiquidityDividend(lines, i, r.value.year, cashFloat).Ok? &&
      r.value.divs == st.divs + [LiquidityDividend(lines, i, r.value.year, cashFloat).value]
    ensures r.Ok? && !IsLiquidityAnchor(lines[i]) ==> r.value.divs == st.divs
  {
    var line := lines[i];
    var year :- if IsStatementLine(line) then LastToken(line) else Ok(st.year);
    if IsLiquidityAnchor(line) then
      var d :- LiquidityDividend(lines, i, year, cashFloat);
      Ok(LiquidityState(year, st.divs + [d]))
    else Ok(LiquidityState(year, st.divs))
  }

  /** The loop of get_liquidity_dividends_from_text over the first n lines. */
  function LiquidityPrefix(lines: seq<string>, n: nat, cashFloat: CashFloat): Result<LiquidityState>
    requires n <= |lines|
  {
    if n == 0 then Ok(LiquidityState("", []))
    else
      var st :- LiquidityPrefix(lines, n - 1, cashFloat);
      LiquidityStep(lines, n - 1, st, cashFloat)
  }

  /** get_liquidity_dividends_from_text (dividends.py:117-137) on values. */
  function LiquidityDividendsSpec(text: string, cashFloat: CashFloat): Result<seq<DividendRecord>> {
    var lines := SplitOn(text, '\n');
    var st :- LiquidityPrefix(lines, |lines|, cashFloat);
    Ok(st.divs)
  }

  /** The year in force after the first n lines: the last token of the last statement heading
      among them, or "" before any. */
  function YearOf(lines: seq<string>, n: nat): string
    requires n <= |lines|
  {
    match LastMatch(lines[..n], 0, IsStatementLine)
    case None => ""
    case Some(k) => var t := LastToken(lines[k]); if t.Ok? then t.value else ""
  }

  /** The positions of the liquidity anchors among the first n lines, in order. */
  function AnchorPositions(lines: seq<string>, n: nat): (ps: seq<nat>)
    requires n <= |lines|
    ensures forall k :: 0 <= k < |ps| ==> ps[k] < n && IsLiquidityAnchor(lines[ps[k]])
  {
    if n == 0 then []
    else AnchorPositions(lines, n - 1) + (if IsLiquidityAnchor(lines[n - 1]) then [n - 1] else [])
  }

  /** The year the loop holds is the last token of the latest statement heading so far. */
  lemma {:induction false} LiquidityYear(lines: seq<string>, n: nat, cashFloat: CashFloat)
    requires n <= |lines| && LiquidityPrefix(lines, n, cashFloat).Ok?
    ensures LiquidityPrefix(lines, n, cashFloat).value.year == YearOf(lines, n)
  {
    if n > 0 {
      LiquidityYear(lines, n - 1, cashFloat);
      assert lines[..n] == lines[..n - 1] + [lines[n - 1]];
      LastMatchSnoc(lines[..n - 1], lines[n - 1], 0, IsStatementLine);
    }
  }

  /** d is the dividend read at the anchor on line p, with the year of the latest statement
      heading up to that line: no tax and a net equal to its gross. */
  predicate ReadAtAnchor(lines: seq<string>, p: nat, d: DividendRecord, cashFloat: CashFloat)
    requires p < |lines|
  {
    && LiquidityDividend(lines, p, YearOf(lines, p + 1), cashFloat) == Ok(d)
    && d.usdTax == 0.0 && d.usdNet == d.usdGross
  }

  /** The dividends read so far match the anchors among the first n lines one to one, in text
      order. */
  predicate MatchesAnchors(lines: seq<string>, n: nat, divs: seq<DividendRecord>, cashFloat: CashFloat)
    requires n <= |lines|
  {
    var ps := AnchorPositions(lines, n);
    |divs| == |ps| && forall k :: 0 <= k < |ps| ==> ReadAtAnchor(lines, ps[k], divs[k], cashFloat)
  }

  /** An anchor line appends the dividend read at it. */
  lemma MatchesAnchorsAppend(lines: seq<string>, n: nat, divs: seq<DividendRecord>, d: DividendRecord, cashFloat: CashFloat)
    requires n < |lines| && IsLiquidityAnchor(lines[n]) && MatchesAnchors(lines, n, divs, cashFloat)
    requires LiquidityDividend(lines, n, YearOf(lines, n + 1), cashFloat) == Ok(d)
    ensures MatchesAnchors(lines, n + 1, divs + [d], cashFloat)
  {
    var prev := AnchorPositions(lines, n);
    var ps := AnchorPositions(lines, n + 1);
    var divs' := divs + [d];
    assert ps == prev + [n];
    assert ReadAtAnchor(lines, n, d, cashFloat);
    forall k | 0 <= k < |ps|
      ensures ReadAtAnchor(lines, ps[k], divs'[k], cashFloat)
    {
      if k < |divs| {
        assert ps[k] == prev[k] && divs'[k] == divs[k];
      } else {
        assert ps[k] == n && divs'[k] == d;
      }
    }
  }

  /** Any other line leaves the dividends as they are. */
  lemma MatchesAnchorsSkip(lines: seq<string>, n: nat, divs: seq<DividendRecord>, cashFloat: CashFloat)
    requires n < |lines| && !IsLiquidityAnchor(lines[n]) && MatchesAnchors(lines, n, divs, cashFloat)
    ensures MatchesAnchors(lines, n + 1, divs, cashFloat)
  {
    assert AnchorPositions(lines, n + 1) == AnchorPositions(lines, n);
  }

  /** One dividend per liquidity anchor, in text order (MatchesAnchors). */
  lemma {:induction false} LiquidityOnePerAnchor(lines: seq<string>, n: nat, cashFloat: CashFloat)
    requires n <= |lines| && LiquidityPrefix(lines, n, cashFloat).Ok?
    ensures MatchesAnchors(lines, n, LiquidityPrefix(lines, n, cashFloat).value.divs, cashFloat)
  {
    if n > 0 {
      LiquidityOnePerAnchor(lines, n - 1, cashFloat);
      LiquidityYear(lines, n, cashFloat);
      var prev := LiquidityPrefix(lines, n - 1, cashFloat).value;
      var cur := LiquidityPrefix(lines, n, cashFloat).value;
      assert LiquidityStep(lines, n - 1, prev, cashFloat) == Ok(cur);
      if IsLiquidityAnchor(lines[n - 1]) {
        var d := LiquidityDividend(lines, n - 1, cur.year, cashFloat).value;
        MatchesAnchorsAppend(lines, n - 1, prev.divs, d, cashFloat);
      } else {
        MatchesAnchorsSkip(lines, n - 1, prev.divs, cashFloat);
      }
    }
  }

  /** The usual variant needs the line after the anchor: an anchor on the last line raises
      IndexError once its date reads. */
  lemma LiquidityNeedsNextLine(lines: seq<string>, year: string, cashFloat: CashFloat)
    requires |lines| > 0 && !IsPriorYearLine(lines[|lines| - 1])
    requires var t := At(Tokens(lines[|lines| - 1]), 0); t.Ok? && ParseDate(t.value + "/" + year, '/').Ok?
    ensures LiquidityDividend(lines, |lines| - 1, year, cashFloat) == Err(IndexError)
  {
  }

  /** Once the loop has raised, it stays raised. */
  lemma {:induction false} LiquidityErrorSticks(lines: seq<string>, n: nat, m: nat, cashFloat: CashFloat)
    requires n <= m <= |lines| && LiquidityPrefix(lines, n, cashFloat).Err?
    ensures LiquidityPrefix(lines, m, cashFloat) == LiquidityPrefix(lines, n, cashFloat)
    decreases m - n
  {
    if n < m {
      LiquidityErrorSticks(lines, n, m - 1, cashFloat);
      assert LiquidityPrefix(lines, m - 1, cashFloat).Err?;
    }
  }

  /** The records of a list of dividends. */
  function Snapshots(ds: seq<Dividend>): seq<DividendRecord>
    reads set k | 0 <= k < |ds| :: ds[k]
  {
    if ds == [] then [] else Snapshots(ds[..|ds| - 1]) + [ds[|ds| - 1].Snapshot()]
  }

  /** The body of get_liquidity_dividends_from_text's loop (dividends.py:123-136): the new
      year and list, with the appended dividend a new object. */
  method ReadLiquidityLine(lines: seq<string>, i: nat, year: string, ldivs: seq<Dividend>, cashFloat: CashFloat)
      returns (outcome: Outcome, year': string, ldivs': seq<Dividend>)
    requires i < |lines| && LiquidityPrefix(lines, i, cashFloat) == Ok(LiquidityState(year, Snapshots(ldivs)))
    ensures outcome.Pass? ==> LiquidityPrefix(lines, i + 1, cashFloat) == Ok(LiquidityState(year', Snapshots(ldivs')))
    ensures outcome.Fail? ==> LiquidityPrefix(lines, i + 1, cashFloat) == Err(outcome.error)
    ensures |ldivs| <= |ldivs'| && ldivs'[..|ldivs|] == ldivs
    ensures forall d :: d in ldivs' ==> d in ldivs || fresh(d)
  {
    year', ldivs' := year, ldivs;
    var line := lines[i];
    if IsStatementLine(line) {
      var t := LastToken(line);
      if t.Err? { return Fail(t.error), year', ldivs'; }
      year' := t.value;
    }
    if IsLiquidityAnchor(line) {
      var d := LiquidityDividend(lines, i, year', cashFloat);
      if d.Err? { return Fail(d.error), year', ldivs'; }
      var dividend := new Dividend(d.value.payDate, d.value.usdGross, d.value.usdTax, d.value.usdNet);
      assert dividend.Snapshot() == d.value;
      assert (ldivs + [dividend])[..|ldivs|] == ldivs;
      assert Snapshots(ldivs + [dividend]) == Snapshots(ldivs) + [d.value];
      ldivs' := ldivs + [dividend];
    }
    return Pass, year', ldivs';
  }

  /** The loop of get_liquidity_dividends_from_text (dividends.py:123-136) over all lines. */
  method ReadLiquidityLines(lines: seq<string>, cashFloat: CashFloat) returns (r: Result<seq<Dividend>>)
    ensures match LiquidityPrefix(lines, |lines|, cashFloat)
      case Err(e) => r == Err(e)
      case Ok(st) => r.Ok? && Snapshots(r.value) == st.divs && forall d :: d in r.value ==> fresh(d)
  {
    var ldivs: seq<Dividend> := [];
    var year := "";
    for i := 0 to |lines|
      invariant LiquidityPrefix(lines, i, cashFloat) == Ok(LiquidityState(year, Snapshots(ldivs)))
      invariant forall d :: d in ldivs ==> fresh(d)
    {
      var outcome;
      outcome, year, ldivs := ReadLiquidityLine(lines, i, year, ldivs, cashFloat);
      if outcome.Fail? {
        LiquidityErrorSticks(lines, i + 1, |lines|, cashFloat);
        return Err(outcome.error);
      }
    }
    return Ok(ldivs);
  }

  /** get_liquidity_dividends_from_text (dividends.py:117-137). */
  method GetLiquidityDividendsFromText(text: string, cashFloat: CashFloat) returns (r: Result<seq<Dividend>>)
    ensures match LiquidityDividendsSpec(text, cashFloat)
      case Err(e) => r == Err(e)
      case Ok(ds) => r.Ok? && Snapshots(r.value) == ds && forall d :: d in r.value ==> fresh(d)
  {
    r := ReadLiquidityLines(SplitOn(text, '\n'), cashFloat);
  }

  // ---------------------------------------------------------------- Summary

  function FlatRateTaxSum(ds: seq<DividendRecord>): real {
    if ds == [] then 0.0 else FlatRateTaxSum(ds[..|ds| - 1]) + ds[|ds| - 1].flatRateTax
  }

  function TaxPaidSum(ds: seq<DividendRecord>): real {
    if ds == [] then 0.0 else TaxPaidSum(ds[..|ds| - 1]) + ds[|ds| - 1].plnTaxPaid
  }

  /** divs_sum_csved (dividends.py:140-153): nothing for no dividends; otherwise the summed
      flat-rate tax and the summed tax paid, each rounded up to whole grosze, and the difference
      of the rounded totals, with their PIT-38 fields. */
  function DivsSumCsved(ds: seq<DividendRecord>): (lines: seq<SummaryLine>)
    ensures ds == [] <==> lines == []
    ensures ds != [] ==>
      && |lines| == 3
      && lines[0].name == "tax flat-rate" && lines[0].field == "PIT-38/G/45"
      && FlatRateTaxSum(ds) <= lines[0].value < FlatRateTaxSum(ds) + 0.01 && IsCents(lines[0].value)
      && lines[1].name == "tax paid" && lines[1].field == "PIT-38/G/46"
      && TaxPaidSum(ds) <= lines[1].value < TaxPaidSum(ds) + 0.01 && IsCents(lines[1].value)
      && lines[2] == SummaryLine("tax diff", lines[0].value - lines[1].value, "PIT-38/G/47")
  {
    if ds == [] then []
    else
      var flatRate := RoundUp(FlatRateTaxSum(ds));
      var taxPaid := RoundUp(TaxPaidSum(ds));
      [ SummaryLine("tax flat-rate", flatRate, "PIT-38/G/45"),
        SummaryLine("tax paid", taxPaid, "PIT-38/G/46"),
        SummaryLine("tax diff", flatRate - taxPaid, "PIT-38/G/47") ]
  }

  /** Totals that are already whole grosze are reported as they are. */
  lemma DivsSumOfCents(ds: seq<DividendRecord>)
    requires ds != [] && IsCents(FlatRateTaxSum(ds)) && IsCents(TaxPaidSum(ds))
    ensures DivsSumCsved(ds)[0].value == FlatRateTaxSum(ds)
    ensures DivsSumCsved(ds)[1].value == TaxPaidSum(ds)
    ensures DivsSumCsved(ds)[2].value == FlatRateTaxSum(ds) - TaxPaidSum(ds)
  {
    RoundUpLeast(FlatRateTaxSum(ds), FlatRateTaxSum(ds));
    RoundUpLeast(TaxPaidSum(ds), TaxPaidSum(ds));
  }
}
