/** Model of src/etrade_tax_poland/stocks.py: the ESPP purchase, restricted-stock release and
    trade confirmation parsers, the PLN arithmetic of purchases and sales, the buy/sell projection
    that feeds the summary, and the capital-gains summary. Each event is an object whose fields the
    parser overwrites line by line; a datatype record gives its value. */
module Stocks {
  import opened Results
  import opened Text
  import Numbers
  import opened Dates
  import opened Common

  /** `cash_float`, the money-token conversion that stocks.py and dividends.py import from
      common.py; it is not part of this model, so the parsers take it as a parameter. It is a
      total function: the model assumes it never raises. */
  type CashFloat = string -> real

  /** What a parser returns: the empty marker `""` when the document is not of its kind, the
      event, or the exception it raised. */
  datatype Parsed<+T> = Absent | Parsed(value: T) | Raised(error: Error)

  const PURCHASE_CONFIRMATION := "EMPLOYEE STOCK PLAN PURCHASE CONFIRMATION"
  const RELEASE_CONFIRMATION := "EMPLOYEE STOCK PLAN RELEASE CONFIRMATION"
  const TRADE_CONFIRMATION := "TRADECONFIRMATION"

  /** `line.split()[-1]`. */
  function LastToken(line: string): Result<string> {
    At(Tokens(line), -1)
  }

  /** `cash_float(line.split()[-1])`. */
  function Amount(line: string, cashFloat: CashFloat): Result<real> {
    var t :- LastToken(line);
    Ok(cashFloat(t))
  }

  /** `int(float(line.split()[-1]))`. */
  function ShareCount(line: string): Result<int> {
    var t :- LastToken(line);
    Numbers.ParseShares(t)
  }

  /** The value the last of lines[i..] that matches gives to a field, or the field's current
      value when none matches. */
  function Latest<T>(lines: seq<string>, i: nat, matches: string -> bool, read: string -> Result<T>, current: T): Result<T>
    requires i <= |lines|
  {
    match LastMatch(lines, i, matches)
    case None => Ok(current)
    case Some(j) => read(lines[j])
  }

  /** Latest for a money field read with cash_float. */
  function LatestAmount(lines: seq<string>, i: nat, matches: string -> bool, cashFloat: CashFloat, current: real): Result<real>
    requires i <= |lines|
  {
    match LastMatch(lines, i, matches)
    case None => Ok(current)
    case Some(j) => Amount(lines[j], cashFloat)
  }

  /** Reading line i and then the rest agrees with reading from line i on. */
  lemma LatestStep<T>(lines: seq<string>, i: nat, matches: string -> bool, read: string -> Result<T>, current: T)
    requires i < |lines| && (matches(lines[i]) ==> read(lines[i]).Ok?)
    ensures Latest(lines, i, matches, read, current)
         == Latest(lines, i + 1, matches, read, if matches(lines[i]) then read(lines[i]).value else current)
  {
  }

  lemma LatestAmountStep(lines: seq<string>, i: nat, matches: string -> bool, cashFloat: CashFloat, current: real)
    requires i < |lines| && (matches(lines[i]) ==> Amount(lines[i], cashFloat).Ok?)
    ensures LatestAmount(lines, i, matches, cashFloat, current)
         == LatestAmount(lines, i + 1, matches, cashFloat, if matches(lines[i]) then Amount(lines[i], cashFloat).value else current)
  {
  }

  // ---------------------------------------------------------------- Trade

  datatype TradeRecord = TradeRecord(
    sharesSold: int, usdNetIncome: real, tradeDate: Date,
    ratioDate: Day, ratioValue: real, plnIncome: real, file: string)

  /** A new Trade (stocks.py:13-21). */
  const NEW_TRADE := TradeRecord(0, 0.0, EPOCH, 0, 0.0, 0.0, "")

  /** A sale of shares (stocks.py:10-56). */
  class Trade {
    var sharesSold: int
    var usdNetIncome: real
    var tradeDate: Date
    var ratioDate: Day
    var ratioValue: real
    var plnIncome: real
    var file: string

    function Snapshot(): TradeRecord
      reads this
    {
      TradeRecord(sharesSold, usdNetIncome, tradeDate, ratioDate, ratioValue, plnIncome, file)
    }

    constructor ()
      ensures Snapshot() == NEW_TRADE
    {
      sharesSold, usdNetIncome, tradeDate := 0, 0.0, EPOCH;
      ratioDate, ratioValue, plnIncome, file := 0, 0.0, 0.0, "";
    }

    /** insert_currencies_ratio (stocks.py:52-56): stores the rate and its date and sets the PLN
        income to rate times USD net income, unrounded; nothing else changes. */
    method InsertCurrenciesRatio(ratioDate: Day, ratioValue: real)
      modifies this
      ensures Snapshot() == old(Snapshot()).(ratioDate := ratioDate, ratioValue := ratioValue,
                                             plnIncome := ratioValue * old(usdNetIncome))
    {
      this.ratioDate := ratioDate;
      this.ratioValue := ratioValue;
      this.plnIncome := ratioValue * usdNetIncome;
    }

    /** The body of trade_from_text's loop (stocks.py:249-256). */
    method ReadLine(line: string, cashFloat: CashFloat) returns (outcome: Outcome)
      modifies this
      ensures match TradeLine(old(Snapshot()), line, cashFloat)
        case Ok(r) => outcome == Pass && Snapshot() == r
        case Err(e) => outcome == Fail(e)
    {
      if IsStockPlanLine(line) {
        var n := SharesSold(line);
        if n.Err? { return Fail(n.error); }
        sharesSold := n.value;
        var d := TradeDate(line);
        if d.Err? { return Fail(d.error); }
        tradeDate := d.value;
      }
      assert SetStockPlan(old(Snapshot()), line) == Ok(Snapshot());
      ghost var r1 := Snapshot();
      if IsNetAmountLine(line) {
        var v := Amount(line, cashFloat);
        if v.Err? { return Fail(v.error); }
        usdNetIncome := v.value;
      }
      assert SetNetIncome(r1, line, cashFloat) == Ok(Snapshot());
      return Pass;
    }
  }

  // ---------------------------------------------------------------- ESPP purchase

  datatype EsppRecord = EsppRecord(
    purchaseDate: Date, plnContributionGross: real, usdContributionRefund: real,
    plnContributionNet: real, vestDayRatio: real, sharesPurchased: int, file: string)

  /** A new EsppStock (stocks.py:62-70). */
  const NEW_ESPP := EsppRecord(EPOCH, 0.0, 0.0, 0.0, 0.0, 0, "")

  /** The net PLN contribution: the gross contribution less the refund converted at the
      purchase rate and rounded to hundredths; a zero rate raises ZeroDivisionError. */
  function NetContribution(gross: real, refund: real, ratio: real): (r: Result<real>)
    ensures r.Ok? <==> ratio != 0.0
    ensures r.Ok? ==> gross - refund / ratio - 0.005 <= r.value <= gross - refund / ratio + 0.005
    ensures r.Ok? ==> IsCents(gross - r.value)
  {
    if ratio == 0.0 then Err(ZeroDivisionError) else Ok(gross - RoundCents(refund / ratio))
  }

  /** An ESPP purchase (stocks.py:59-75). */
  class EsppStock {
    var purchaseDate: Date
    var plnContributionGross: real
    var usdContributionRefund: real
    var plnContributionNet: real
    var vestDayRatio: real
    var sharesPurchased: int
    var file: string

    function Snapshot(): EsppRecord
      reads this
    {
      EsppRecord(purchaseDate, plnContributionGross, usdContributionRefund,
                 plnContributionNet, vestDayRatio, sharesPurchased, file)
    }

    constructor ()
      ensures Snapshot() == NEW_ESPP
    {
      purchaseDate, plnContributionGross, usdContributionRefund := EPOCH, 0.0, 0.0;
      plnContributionNet, vestDayRatio, sharesPurchased, file := 0.0, 0.0, 0, "";
    }

    /** The body of espp_from_text's loop (stocks.py:203-218): each label found in the line
        overwrites its field; a line that cannot be read raises. */
    method ReadLine(line: string, cashFloat: CashFloat) returns (outcome: Outcome)
      modifies this
      ensures match EsppLine(old(Snapshot()), line, cashFloat)
        case Ok(r) => outcome == Pass && Snapshot() == r
        case Err(e) => outcome == Fail(e)
    {
      if IsPurchaseDateLine(line) {
        var d := PurchaseDate(line);
        if d.Err? { return Fail(d.error); }
        purchaseDate := d.value;
      }
      assert SetPurchaseDate(old(Snapshot()), line) == Ok(Snapshot());
      ghost var r1 := Snapshot();
      if IsForeignContributionsLine(line) {
        var v := Amount(line, cashFloat);
        if v.Err? { return Fail(v.error); }
        plnContributionGross := v.value;
      }
      assert SetContributionGross(r1, line, cashFloat) == Ok(Snapshot());
      ghost var r2 := Snapshot();
      if IsExchangeRateLine(line) {
        var v := Amount(line, cashFloat);
        if v.Err? { return Fail(v.error); }
        vestDayRatio := v.value;
      }
      assert SetVestDayRatio(r2, line, cashFloat) == Ok(Snapshot());
      ghost var r3 := Snapshot();
      if IsRefundLine(line) {
        var v := Amount(line, cashFloat);
        if v.Err? { return Fail(v.error); }
        usdContributionRefund := v.value;
      }
      assert SetContributionRefund(r3, line, cashFloat) == Ok(Snapshot());
      ghost var r4 := Snapshot();
      if IsSharesPurchasedLine(line) {
        var n := ShareCount(line);
        if n.Err? { return Fail(n.error); }
        sharesPurchased := n.value;
      }
      assert SetSharesPurchased(r4, line) == Ok(Snapshot());
      return Pass;
    }

    /** calculate_pln_contribution_net (stocks.py:72-75): sets the net contribution, or raises
        ZeroDivisionError on a zero rate and changes nothing. */
    method CalculatePlnContributionNet() returns (outcome: Outcome)
      modifies this
      ensures var net := NetContribution(old(plnContributionGross), old(usdContributionRefund), old(vestDayRatio));
              if net.Ok? then outcome == Pass && Snapshot() == old(Snapshot()).(plnContributionNet := net.value)
              else outcome == Fail(net.error) && Snapshot() == old(Snapshot())
    {
      if vestDayRatio == 0.0 {
        return Fail(ZeroDivisionError);
      }
      var refund := RoundCents(usdContributionRefund / vestDayRatio);
      plnContributionNet := plnContributionGross - refund;
      return Pass;
    }
  }

  predicate IsPurchaseDateLine(line: string) { Contains(line, "Purchase Date") }
  predicate IsForeignContributionsLine(line: string) { Contains(line, "Foreign Contributions") }
  predicate IsExchangeRateLine(line: string) { Contains(line, "Average Exchange Rate") }
  predicate IsRefundLine(line: string) { Contains(line, "Amount Refunded") }

  /** The "Shares Purchased 50.0000" line has exactly three tokens; the longer
      "Purchase Date ...Shares Purchased to Date..." line does not count. */
  predicate IsSharesPurchasedLine(line: string) {
    Contains(line, "Shares Purchased") && |Tokens(line)| == 3
  }

  /** The purchase date: the third token without "Shares", read as MM-DD-YYYY. */
  function PurchaseDate(line: string): Result<Date> {
    var t :- At(Tokens(line), 2);
    ParseDate(RemoveAll(t, "Shares"), '-')
  }

  /** The steps of one pass of espp_from_text's loop (stocks.py:203-218), one per label; a label's
      line overwrites its field. */
  function SetPurchaseDate(r: EsppRecord, line: string): Result<EsppRecord> {
    if IsPurchaseDateLine(line) then var d :- PurchaseDate(line); Ok(r.(purchaseDate := d)) else Ok(r)
  }
  function SetContributionGross(r: EsppRecord, line: string, cashFloat: CashFloat): Result<EsppRecord> {
    if IsForeignContributionsLine(line) then var v :- Amount(line, cashFloat); Ok(r.(plnContributionGross := v)) else Ok(r)
  }
  function SetVestDayRatio(r: EsppRecord, line: string, cashFloat: CashFloat): Result<EsppRecord> {
    if IsExchangeRateLine(line) then var v :- Amount(line, cashFloat); Ok(r.(vestDayRatio := v)) else Ok(r)
  }
  function SetContributionRefund(r: EsppRecord, line: string, cashFloat: CashFloat): Result<EsppRecord> {
    if IsRefundLine(line) then var v :- Amount(line, cashFloat); Ok(r.(usdContributionRefund := v)) else Ok(r)
  }
  function SetSharesPurchased(r: EsppRecord, line: string): Result<EsppRecord> {
    if IsSharesPurchasedLine(line) then var n :- ShareCount(line); Ok(r.(sharesPurchased := n)) else Ok(r)
  }

  /** One pass of espp_from_text's loop over a line, the labels tested in the source's order. */
  function EsppLine(r: EsppRecord, line: string, cashFloat: CashFloat): Result<EsppRecord> {
    var r1 :- SetPurchaseDate(r, line);
    var r2 :- SetContributionGross(r1, line, cashFloat);
    var r3 :- SetVestDayRatio(r2, line, cashFloat);
    var r4 :- SetContributionRefund(r3, line, cashFloat);
    SetSharesPurchased(r4, line)
  }

  /** The loop of espp_from_text from line i on, starting from the record r. */
  function EsppScan(lines: seq<string>, i: nat, r: EsppRecord, cashFloat: CashFloat): Result<EsppRecord>
    requires i <= |lines|
    decreases |lines| - i
  {
    if i == |lines| then Ok(r)
    else
      var r' :- EsppLine(r, lines[i], cashFloat);
      EsppScan(lines, i + 1, r', cashFloat)
  }

  /** espp_from_text (stocks.py:196-220) on values. */
  function EsppFromTextSpec(text: string, cashFloat: CashFloat): Parsed<EsppRecord> {
    if !Contains(text, PURCHASE_CONFIRMATION) then Absent
    else match EsppScan(SplitOn(text, '\n'), 0, NEW_ESPP, cashFloat)
      case Err(e) => Raised(e)
      case Ok(r) =>
        match NetContribution(r.plnContributionGross, r.usdContributionRefund, r.vestDayRatio)
        case Err(e) => Raised(e)
        case Ok(net) => Parsed(r.(plnContributionNet := net))
  }

  /** What one pass of the loop does to each field. */
  lemma EsppLineFields(r: EsppRecord, line: string, cashFloat: CashFloat)
    requires EsppLine(r, line, cashFloat).Ok?
    ensures var out := EsppLine(r, line, cashFloat).value;
      && (IsPurchaseDateLine(line) ==> PurchaseDate(line).Ok?)
      && out.purchaseDate == (if IsPurchaseDateLine(line) then PurchaseDate(line).value else r.purchaseDate)
      && (IsForeignContributionsLine(line) ==> Amount(line, cashFloat).Ok?)
      && out.plnContributionGross == (if IsForeignContributionsLine(line) then Amount(line, cashFloat).value else r.plnContributionGross)
      && (IsExchangeRateLine(line) ==> Amount(line, cashFloat).Ok?)
      && out.vestDayRatio == (if IsExchangeRateLine(line) then Amount(line, cashFloat).value else r.vestDayRatio)
      && (IsRefundLine(line) ==> Amount(line, cashFloat).Ok?)
      && out.usdContributionRefund == (if IsRefundLine(line) then Amount(line, cashFloat).value else r.usdContributionRefund)
      && (IsSharesPurchasedLine(line) ==> ShareCount(line).Ok?)
      && out.sharesPurchased == (if IsSharesPurchasedLine(line) then ShareCount(line).value else r.sharesPurchased)
      && out.plnContributionNet == r.plnContributionNet && out.file == r.file
  {
  }

  /** In espp_from_text every field is set by the last line that carries its label, and keeps its
      starting value when no line does; the net contribution and the file are left to others. */
  lemma {:induction false} EsppLastMatchWins(lines: seq<string>, i: nat, r: EsppRecord, cashFloat: CashFloat)
    requires i <= |lines| && EsppScan(lines, i, r, cashFloat).Ok?
    ensures var out := EsppScan(lines, i, r, cashFloat).value;
      && Latest(lines, i, IsPurchaseDateLine, PurchaseDate, r.purchaseDate) == Ok(out.purchaseDate)
      && LatestAmount(lines, i, IsForeignContributionsLine, cashFloat, r.plnContributionGross) == Ok(out.plnContributionGross)
      && LatestAmount(lines, i, IsExchangeRateLine, cashFloat, r.vestDayRatio) == Ok(out.vestDayRatio)
      && LatestAmount(lines, i, IsRefundLine, cashFloat, r.usdContributionRefund) == Ok(out.usdContributionRefund)
      && Latest(lines, i, IsSharesPurchasedLine, ShareCount, r.sharesPurchased) == Ok(out.sharesPurchased)
      && out.plnContributionNet == r.plnContributionNet && out.file == r.file
    decreases |lines| - i
  {
    if i < |lines| {
      var r1 := EsppLine(r, lines[i], cashFloat).value;
      EsppLineFields(r, lines[i], cashFloat);
      EsppLastMatchWins(lines, i + 1, r1, cashFloat);
      LatestStep(lines, i, IsPurchaseDateLine, PurchaseDate, r.purchaseDate);
      LatestAmountStep(lines, i, IsForeignContributionsLine, cashFloat, r.plnContributionGross);
      LatestAmountStep(lines, i, IsExchangeRateLine, cashFloat, r.vestDayRatio);
      LatestAmountStep(lines, i, IsRefundLine, cashFloat, r.usdContributionRefund);
      LatestStep(lines, i, IsSharesPurchasedLine, ShareCount, r.sharesPurchased);
    }
  }

  /** A purchase confirmation without an "Average Exchange Rate" line raises ZeroDivisionError,
      unless a line raised earlier. */
  lemma EsppWithoutRateRaises(text: string, cashFloat: CashFloat)
    requires Contains(text, PURCHASE_CONFIRMATION)
    requires forall k :: 0 <= k < |SplitOn(text, '\n')| ==> !IsExchangeRateLine(SplitOn(text, '\n')[k])
    ensures EsppFromTextSpec(text, cashFloat).Raised?
    ensures EsppScan(SplitOn(text, '\n'), 0, NEW_ESPP, cashFloat).Ok? ==>
              EsppFromTextSpec(text, cashFloat) == Raised(ZeroDivisionError)
  {
    var lines := SplitOn(text, '\n');
    if EsppScan(lines, 0, NEW_ESPP, cashFloat).Ok? {
      EsppLastMatchWins(lines, 0, NEW_ESPP, cashFloat);
    }
  }

  /** espp_from_text (stocks.py:196-220). */
  method EsppFromText(text: string, cashFloat: CashFloat) returns (r: Parsed<EsppStock>)
    ensures match EsppFromTextSpec(text, cashFloat)
      case Absent => r.Absent?
      case Raised(e) => r == Raised(e)
      case Parsed(rec) => r.Parsed? && fresh(r.value) && r.value.Snapshot() == rec
  {
    if !Contains(text, PURCHASE_CONFIRMATION) {
      return Absent;
    }
    var lines := SplitOn(text, '\n');
    var stock := new EsppStock();
    for i := 0 to |lines|
      invariant EsppScan(lines, 0, NEW_ESPP, cashFloat) == EsppScan(lines, i, stock.Snapshot(), cashFloat)
    {
      var outcome := stock.ReadLine(lines[i], cashFloat);
      if outcome.Fail? {
        return Raised(outcome.error);
      }
    }
    var outcome := stock.CalculatePlnContributionNet();
    if outcome.Fail? {
      return Raised(outcome.error);
    }
    return Parsed(stock);
  }

  // ---------------------------------------------------------------- Restricted stock release

  datatype RsRecord = RsRecord(releaseDate: Date, sharesReleased: int, releaseGain: real, file: string)

  /** A new RestrictedStock (stocks.py:110-115). */
  const NEW_RS := RsRecord(EPOCH, 0, 0.0, "")

  predicate IsReleaseDateLine(line: string) { Contains(line, "Release Date") }
  predicate IsSharesReleasedLine(line: string) { Contains(line, "Shares Released") && |Tokens(line)| == 3 }
  predicate IsTotalGainLine(line: string) { Contains(line, "Total Gain") }

  /** The release date: the last token read as MM-DD-YYYY. */
  function ReleaseDate(line: string): Result<Date> {
    var t :- LastToken(line);
    ParseDate(t, '-')
  }

  function SetReleaseDate(r: RsRecord, line: string): Result<RsRecord> {
    if IsReleaseDateLine(line) then var d :- ReleaseDate(line); Ok(r.(releaseDate := d)) else Ok(r)
  }
  function SetSharesReleased(r: RsRecord, line: string): Result<RsRecord> {
    if IsSharesReleasedLine(line) then var n :- ShareCount(line); Ok(r.(sharesReleased := n)) else Ok(r)
  }
  function SetReleaseGain(r: RsRecord, line: string, cashFloat: CashFloat): Result<RsRecord> {
    if IsTotalGainLine(line) then var v :- Amount(line, cashFloat); Ok(r.(releaseGain := v)) else Ok(r)
  }

  /** One pass of rs_from_text's loop over a line (stocks.py:230-238). */
  function RsLine(r: RsRecord, line: string, cashFloat: CashFloat): Result<RsRecord> {
    var r1 :- SetReleaseDate(r, line);
    var r2 :- SetSharesReleased(r1, line);
    SetReleaseGain(r2, line, cashFloat)
  }

  function RsScan(lines: seq<string>, i: nat, r: RsRecord, cashFloat: CashFloat): Result<RsRecord>
    requires i <= |lines|
    decreases |lines| - i
  {
    if i == |lines| then Ok(r)
    else
      var r' :- RsLine(r, lines[i], cashFloat);
      RsScan(lines, i + 1, r', cashFloat)
  }

  /** rs_from_text (stocks.py:223-239) on values. */
  function RsFromTextSpec(text: string, cashFloat: CashFloat): Parsed<RsRecord> {
    if !Contains(text, RELEASE_CONFIRMATION) then Absent
    else match RsScan(SplitOn(text, '\n'), 0, NEW_RS, cashFloat)
      case Err(e) => Raised(e)
      case Ok(r) => Parsed(r)
  }

  lemma RsLineFields(r: RsRecord, line: string, cashFloat: CashFloat)
    requires RsLine(r, line, cashFloat).Ok?
    ensures var out := RsLine(r, line, cashFloat).value;
      && (IsReleaseDateLine(line) ==> ReleaseDate(line).Ok?)
      && out.releaseDate == (if IsReleaseDateLine(line) then ReleaseDate(line).value else r.releaseDate)
      && (IsSharesReleasedLine(line) ==> ShareCount(line).Ok?)
      && out.sharesReleased == (if IsSharesReleasedLine(line) then ShareCount(line).value else r.sharesReleased)
      && (IsTotalGainLine(line) ==> Amount(line, cashFloat).Ok?)
      && out.releaseGain == (if IsTotalGainLine(line) then Amount(line, cashFloat).value else r.releaseGain)
      && out.file == r.file
  {
  }

  /** In rs_from_text every field is set by the last line that carries its label. */
  lemma {:induction false} RsLastMatchWins(lines: seq<string>, i: nat, r: RsRecord, cashFloat: CashFloat)
    requires i <= |lines| && RsScan(lines, i, r, cashFloat).Ok?
    ensures var out := RsScan(lines, i, r, cashFloat).value;
      && Latest(lines, i, IsReleaseDateLine, ReleaseDate, r.releaseDate) == Ok(out.releaseDate)
      && Latest(lines, i, IsSharesReleasedLine, ShareCount, r.sharesReleased) == Ok(out.sharesReleased)
      && LatestAmount(lines, i, IsTotalGainLine, cashFloat, r.releaseGain) == Ok(out.releaseGain)
      && out.file == r.file
    decreases |lines| - i
  {
    if i < |lines| {
      var r1 := RsLine(r, lines[i], cashFloat).value;
      RsLineFields(r, lines[i], cashFloat);
      RsLastMatchWins(lines, i + 1, r1, cashFloat);
      LatestStep(lines, i, IsReleaseDateLine, ReleaseDate, r.releaseDate);
      LatestStep(lines, i, IsSharesReleasedLine, ShareCount, r.sharesReleased);
      LatestAmountStep(lines, i, IsTotalGainLine, cashFloat, r.releaseGain);
    }
  }

  /** A restricted-stock vest (stocks.py:107-138). */
  class RestrictedStock {
    var releaseDate: Date
    var sharesReleased: int
    var releaseGain: real
    var file: string

    function Snapshot(): RsRecord
      reads this
    {
      RsRecord(releaseDate, sharesReleased, releaseGain, file)
    }

    constructor ()
      ensures Snapshot() == NEW_RS
    {
      releaseDate, sharesReleased, releaseGain, file := EPOCH, 0, 0.0, "";
    }

    /** The body of rs_from_text's loop (stocks.py:230-238). */
    method ReadLine(line: string, cashFloat: CashFloat) returns (outcome: Outcome)
      modifies this
      ensures match RsLine(old(Snapshot()), line, cashFloat)
        case Ok(r) => outcome == Pass && Snapshot() == r
        case Err(e) => outcome == Fail(e)
    {
      if IsReleaseDateLine(line) {
        var d := ReleaseDate(line);
        if d.Err? { return Fail(d.error); }
        releaseDate := d.value;
      }
      assert SetReleaseDate(old(Snapshot()), line) == Ok(Snapshot());
      ghost var r1 := Snapshot();
      if IsSharesReleasedLine(line) {
        var n := ShareCount(line);
        if n.Err? { return Fail(n.error); }
        sharesReleased := n.value;
      }
      assert SetSharesReleased(r1, line) == Ok(Snapshot());
      ghost var r2 := Snapshot();
      if IsTotalGainLine(line) {
        var v := Amount(line, cashFloat);
        if v.Err? { return Fail(v.error); }
        releaseGain := v.value;
      }
      assert SetReleaseGain(r2, line, cashFloat) == Ok(Snapshot());
      return Pass;
    }
  }

  /** rs_from_text (stocks.py:223-239). */
  method RsFromText(text: string, cashFloat: CashFloat) returns (r: Parsed<RestrictedStock>)
    ensures match RsFromTextSpec(text, cashFloat)
      case Absent => r.Absent?
      case Raised(e) => r == Raised(e)
      case Parsed(rec) => r.Parsed? && fresh(r.value) && r.value.Snapshot() == rec
  {
    if !Contains(text, RELEASE_CONFIRMATION) {
      return Absent;
    }
    var lines := SplitOn(text, '\n');
    var rest := new RestrictedStock();
    for i := 0 to |lines|
      invariant RsScan(lines, 0, NEW_RS, cashFloat) == RsScan(lines, i, rest.Snapshot(), cashFloat)
    {
      var outcome := rest.ReadLine(lines[i], cashFloat);
      if outcome.Fail? {
        return Raised(outcome.error);
      }
    }
    return Parsed(rest);
  }

  // ---------------------------------------------------------------- Trade confirmation

  predicate IsStockPlanLine(line: string) { Contains(line, "Stock Plan") }
  predicate IsNetAmountLine(line: string) { Contains(line, "NET AMOUNT") }

  /** The sixth token of the "Stock Plan" line, read with int(). */
  function SharesSold(line: string): Result<int> {
    var t :- At(Tokens(line), 5);
    Numbers.ParseInt(t)
  }

  /** The trade date: the first token of the "Stock Plan" line, MM/DD/YY with "20" put before
      the year, read as MM/DD/YYYY. */
  function TradeDate(line: string): Result<Date> {
    var t :- At(Tokens(line), 0);
    ParseDate(ExpandYear(t), '/')
  }

  function SetStockPlan(r: TradeRecord, line: string): Result<TradeRecord> {
    if IsStockPlanLine(line) then
      var n :- SharesSold(line);
      var d :- TradeDate(line);
      Ok(r.(sharesSold := n, tradeDate := d))
    else Ok(r)
  }
  function SetNetIncome(r: TradeRecord, line: string, cashFloat: CashFloat): Result<TradeRecord> {
    if IsNetAmountLine(line) then var v :- Amount(line, cashFloat); Ok(r.(usdNetIncome := v)) else Ok(r)
  }

  /** One pass of trade_from_text's loop over a line (stocks.py:249-256). */
  function TradeLine(r: TradeRecord, line: string, cashFloat: CashFloat): Result<TradeRecord> {
    var r1 :- SetStockPlan(r, line);
    SetNetIncome(r1, line, cashFloat)
  }

  function TradeScan(lines: seq<string>, i: nat, r: TradeRecord, cashFloat: CashFloat): Result<TradeRecord>
    requires i <= |lines|
    decreases |lines| - i
  {
    if i == |lines| then Ok(r)
    else
      var r' :- TradeLine(r, lines[i], cashFloat);
      TradeScan(lines, i + 1, r', cashFloat)
  }

  /** trade_from_text (stocks.py:242-257) on values. */
  function TradeFromTextSpec(text: string, cashFloat: CashFloat): Parsed<TradeRecord> {
    if !Contains(text, TRADE_CONFIRMATION) then Absent
    else match TradeScan(SplitOn(text, '\n'), 0, NEW_TRADE, cashFloat)
      case Err(e) => Raised(e)
      case Ok(r) => Parsed(r)
  }

  lemma TradeLineFields(r: TradeRecord, line: string, cashFloat: CashFloat)
    requires TradeLine(r, line, cashFloat).Ok?
    ensures var out := TradeLine(r, line, cashFloat).value;
      && (IsStockPlanLine(line) ==> SharesSold(line).Ok? && TradeDate(line).Ok?)
      && out.sharesSold == (if IsStockPlanLine(line) then SharesSold(line).value else r.sharesSold)
      && out.tradeDate == (if IsStockPlanLine(line) then TradeDate(line).value else r.tradeDate)
      && (IsNetAmountLine(line) ==> Amount(line, cashFloat).Ok?)
      && out.usdNetIncome == (if IsNetAmountLine(line) then Amount(line, cashFloat).value else r.usdNetIncome)
      && out.ratioDate == r.ratioDate && out.ratioValue == r.ratioValue
      && out.plnIncome == r.plnIncome && out.file == r.file
  {
  }

  /** In trade_from_text the share count and the date come from the last "Stock Plan" line and
      the net income from the last "NET AMOUNT" line; the rate and PLN fields are untouched. */
  lemma {:induction false} TradeLastMatchWins(lines: seq<string>, i: nat, r: TradeRecord, cashFloat: CashFloat)
    requires i <= |lines| && TradeScan(lines, i, r, cashFloat).Ok?
    ensures var out := TradeScan(lines, i, r, cashFloat).value;
      && Latest(lines, i, IsStockPlanLine, SharesSold, r.sharesSold) == Ok(out.sharesSold)
      && Latest(lines, i, IsStockPlanLine, TradeDate, r.tradeDate) == Ok(out.tradeDate)
      && LatestAmount(lines, i, IsNetAmountLine, cashFloat, r.usdNetIncome) == Ok(out.usdNetIncome)
      && out.ratioDate == r.ratioDate && out.ratioValue == r.ratioValue
      && out.plnIncome == r.plnIncome && out.file == r.file
    decreases |lines| - i
  {
    if i < |lines| {
      var r1 := TradeLine(r, lines[i], cashFloat).value;
      TradeLineFields(r, lines[i], cashFloat);
      TradeLastMatchWins(lines, i + 1, r1, cashFloat);
      LatestStep(lines, i, IsStockPlanLine, SharesSold, r.sharesSold);
      LatestStep(lines, i, IsStockPlanLine, TradeDate, r.tradeDate);
      LatestAmountStep(lines, i, IsNetAmountLine, cashFloat, r.usdNetIncome);
    }
  }

  /** trade_from_text (stocks.py:242-257). */
  method TradeFromText(text: string, cashFloat: CashFloat) returns (r: Parsed<Trade>)
    ensures match TradeFromTextSpec(text, cashFloat)
      case Absent => r.Absent?
      case Raised(e) => r == Raised(e)
      case Parsed(rec) => r.Parsed? && fresh(r.value) && r.value.Snapshot() == rec
  {
    if !Contains(text, TRADE_CONFIRMATION) {
      return Absent;
    }
    var lines := SplitOn(text, '\n');
    var trade := new Trade();
    for i := 0 to |lines|
      invariant TradeScan(lines, 0, NEW_TRADE, cashFloat) == TradeScan(lines, i, trade.Snapshot(), cashFloat)
    {
      var outcome := trade.ReadLine(lines[i], cashFloat);
      if outcome.Fail? {
        return Raised(outcome.error);
      }
    }
    return Parsed(trade);
  }

  // ---------------------------------------------------------------- Sum-up events and summary

  /** A StockEvent (stocks.py:141-164): a buy from a purchase or a vest, or a sale from a trade.
      The fields the event's kind does not set keep the source's 0, here None for dates. */
  datatype StockEvent = StockEvent(
    buyDate: Option<Date>, buySharesCount: int, buyTaxDeductible: real,
    saleDate: Option<Date>, saleSharesCount: int, saleIncome: real, file: string)

  /** The object a StockEvent is built from. */
  datatype StockSource = FromEspp(espp: EsppRecord) | FromRestricted(rs: RsRecord) | FromTrade(trade: TradeRecord)

  /** StockEvent(base_object) (stocks.py:144-164). */
  function NewStockEvent(src: StockSource): (r: StockEvent)
    ensures src.FromTrade? <==> r.buyDate.None?
    ensures src.FromTrade? <==> r.saleDate.Some?
    ensures r.buyDate.None? ==> r.buySharesCount == 0 && r.buyTaxDeductible == 0.0
    ensures r.saleDate.None? ==> r.saleSharesCount == 0 && r.saleIncome == 0.0
    ensures src.FromEspp? ==>
      && r.buyDate == Some(src.espp.purchaseDate) && r.buySharesCount == src.espp.sharesPurchased
      && r.buyTaxDeductible == src.espp.plnContributionNet && r.file == src.espp.file
    ensures src.FromRestricted? ==>
      && r.buyDate == Some(src.rs.releaseDate) && r.buySharesCount == src.rs.sharesReleased
      && r.buyTaxDeductible == 0.0 && r.file == src.rs.file
    ensures src.FromTrade? ==>
      && r.saleDate == Some(src.trade.tradeDate) && r.saleSharesCount == src.trade.sharesSold
      && r.saleIncome == src.trade.plnIncome && r.file == src.trade.file
  {
    match src
    case FromEspp(e) => StockEvent(Some(e.purchaseDate), e.sharesPurchased, e.plnContributionNet, None, 0, 0.0, e.file)
    case FromRestricted(r) => StockEvent(Some(r.releaseDate), r.sharesReleased, 0.0, None, 0, 0.0, r.file)
    case FromTrade(t) => StockEvent(None, 0, 0.0, Some(t.tradeDate), t.sharesSold, t.plnIncome, t.file)
  }

  /** `[StockEvent(x) for x in espps + rests + trades]` (stocks.py:302). */
  function StockEvents(espps: seq<EsppRecord>, rests: seq<RsRecord>, trades: seq<TradeRecord>): (ses: seq<StockEvent>)
    ensures |ses| == |espps| + |rests| + |trades|
    ensures forall k :: 0 <= k < |espps| ==> ses[k] == NewStockEvent(FromEspp(espps[k]))
    ensures forall k :: 0 <= k < |rests| ==> ses[|espps| + k] == NewStockEvent(FromRestricted(rests[k]))
    ensures forall k :: 0 <= k < |trades| ==> ses[|espps| + |rests| + k] == NewStockEvent(FromTrade(trades[k]))
  {
    seq(|espps|, k requires 0 <= k < |espps| => NewStockEvent(FromEspp(espps[k])))
    + seq(|rests|, k requires 0 <= k < |rests| => NewStockEvent(FromRestricted(rests[k])))
    + seq(|trades|, k requires 0 <= k < |trades| => NewStockEvent(FromTrade(trades[k])))
  }

  /** `sum(s.sale_income for s in stocks)`. */
  function SaleIncomeSum(ses: seq<StockEvent>): real
    decreases |ses|
  {
    if ses == [] then 0.0 else SaleIncomeSum(ses[..|ses| - 1]) + ses[|ses| - 1].saleIncome
  }

  /** `sum(s.buy_tax_deductible for s in stocks)`. */
  function TaxDeductibleSum(ses: seq<StockEvent>): real
    decreases |ses|
  {
    if ses == [] then 0.0 else TaxDeductibleSum(ses[..|ses| - 1]) + ses[|ses| - 1].buyTaxDeductible
  }

  /** The sum of the net contributions of the purchases. */
  function NetContributionSum(espps: seq<EsppRecord>): real
    decreases |espps|
  {
    if espps == [] then 0.0 else NetContributionSum(espps[..|espps| - 1]) + espps[|espps| - 1].plnContributionNet
  }

  /** The sum of the PLN incomes of the trades. */
  function PlnIncomeSum(trades: seq<TradeRecord>): real
    decreases |trades|
  {
    if trades == [] then 0.0 else PlnIncomeSum(trades[..|trades| - 1]) + trades[|trades| - 1].plnIncome
  }

  lemma {:induction false} SumsDistribute(a: seq<StockEvent>, b: seq<StockEvent>)
    ensures SaleIncomeSum(a + b) == SaleIncomeSum(a) + SaleIncomeSum(b)
    ensures TaxDeductibleSum(a + b) == TaxDeductibleSum(a) + TaxDeductibleSum(b)
    decreases |b|
  {
    if b == [] {
      assert a + b == a;
    } else {
      assert (a + b)[..|a + b| - 1] == a + b[..|b| - 1];
      SumsDistribute(a, b[..|b| - 1]);
    }
  }

  lemma {:induction false} EsppEventSums(espps: seq<EsppRecord>)
    ensures var ses := StockEvents(espps, [], []);
      SaleIncomeSum(ses) == 0.0 && TaxDeductibleSum(ses) == NetContributionSum(espps)
    decreases |espps|
  {
    if espps != [] {
      var init := espps[..|espps| - 1];
      assert StockEvents(espps, [], []) == StockEvents(init, [], []) + [NewStockEvent(FromEspp(espps[|espps| - 1]))];
      EsppEventSums(init);
      SumsDistribute(StockEvents(init, [], []), [NewStockEvent(FromEspp(espps[|espps| - 1]))]);
    }
  }

  lemma {:induction false} RsEventSums(rests: seq<RsRecord>)
    ensures var ses := StockEvents([], rests, []);
      SaleIncomeSum(ses) == 0.0 && TaxDeductibleSum(ses) == 0.0
    decreases |rests|
  {
    if rests != [] {
      var init := rests[..|rests| - 1];
      assert StockEvents([], rests, []) == StockEvents([], init, []) + [NewStockEvent(FromRestricted(rests[|rests| - 1]))];
      RsEventSums(init);
      SumsDistribute(StockEvents([], init, []), [NewStockEvent(FromRestricted(rests[|rests| - 1]))]);
    }
  }

  lemma {:induction false} TradeEventSums(trades: seq<TradeRecord>)
    ensures var ses := StockEvents([], [], trades);
      SaleIncomeSum(ses) == PlnIncomeSum(trades) && TaxDeductibleSum(ses) == 0.0
    decreases |trades|
  {
    if trades != [] {
      var init := trades[..|trades| - 1];
      assert StockEvents([], [], trades) == StockEvents([], [], init) + [NewStockEvent(FromTrade(trades[|trades| - 1]))];
      TradeEventSums(init);
      SumsDistribute(StockEvents([], [], init), [NewStockEvent(FromTrade(trades[|trades| - 1]))]);
    }
  }

  /** The income of the stock events is the PLN income of the sales and their costs are the net
      contributions of the ESPP purchases; vested restricted stock adds nothing to either. */
  lemma EventSums(espps: seq<EsppRecord>, rests: seq<RsRecord>, trades: seq<TradeRecord>)
    ensures var ses := StockEvents(espps, rests, trades);
      SaleIncomeSum(ses) == PlnIncomeSum(trades) && TaxDeductibleSum(ses) == NetContributionSum(espps)
  {
    assert StockEvents(espps, rests, trades)
        == StockEvents(espps, [], []) + StockEvents([], rests, []) + StockEvents([], [], trades);
    SumsDistribute(StockEvents(espps, [], []) + StockEvents([], rests, []), StockEvents([], [], trades));
    SumsDistribute(StockEvents(espps, [], []), StockEvents([], rests, []));
    EsppEventSums(espps);
    RsEventSums(rests);
    TradeEventSums(trades);
  }

  /** stocks_sum_csved (stocks.py:260-278): nothing for no events; otherwise the income, the
      costs, the profit, the profit rounded to whole zloty, the 19% tax on it and that tax
      rounded, each with its PIT-38 field. */
  function StocksSumCsved(ses: seq<StockEvent>): (lines: seq<SummaryLine>)
    ensures ses == [] <==> lines == []
    ensures ses != [] ==>
      && |lines| == 6
      && lines[0] == SummaryLine("other income", SaleIncomeSum(ses), "PIT-38/C/22&24")
      && lines[1] == SummaryLine("tax deductible", TaxDeductibleSum(ses), "PIT-38/C/23&25")
      && lines[2] == SummaryLine("profit", lines[0].value - lines[1].value, "PIT-38/C/26")
      && lines[3].name == "profit_rounded" && lines[3].field == "PIT-38/C/29"
      && IsWhole(lines[3].value) && lines[2].value - 0.5 <= lines[3].value <= lines[2].value + 0.5
      && lines[3].value == RoundHalfEven(lines[2].value) as real
      && lines[4] == SummaryLine("tax_base", lines[3].value * TAX_PL, "PIT-38/C/31")
      && lines[5].name == "tax_rounded" && lines[5].field == "PIT-38/C/33"
      && IsWhole(lines[5].value) && lines[4].value - 0.5 <= lines[5].value <= lines[4].value + 0.5
      && lines[5].value == RoundHalfEven(lines[4].value) as real
  {
    if ses == [] then []
    else
      var otherIncome := SaleIncomeSum(ses);
      var taxDeductible := TaxDeductibleSum(ses);
      var profit := otherIncome - taxDeductible;
      var roundedProfit := RoundHalfEven(profit);
      var taxBase := roundedProfit as real * TAX_PL;
      var taxRounded := RoundHalfEven(taxBase);
      [ SummaryLine("other income", otherIncome, "PIT-38/C/22&24"),
        SummaryLine("tax deductible", taxDeductible, "PIT-38/C/23&25"),
        SummaryLine("profit", profit, "PIT-38/C/26"),
        SummaryLine("profit_rounded", roundedProfit as real, "PIT-38/C/29"),
        SummaryLine("tax_base", taxBase, "PIT-38/C/31"),
        SummaryLine("tax_rounded", taxRounded as real, "PIT-38/C/33") ]
  }

  /** A sale worth 1000.00 PLN of shares bought for 400.25 PLN: a profit of 599.75, declared as
      600, and 114 PLN of tax. */
  lemma StocksSummaryExample(e: EsppRecord, t: TradeRecord)
    requires e.plnContributionNet == 400.25 && t.plnIncome == 1000.0
    ensures var lines := StocksSumCsved(StockEvents([e], [], [t]));
      lines[2].value == 599.75 && lines[3].value == 600.0 && lines[4].value == 114.0 && lines[5].value == 114.0
  {
    EventSums([e], [], [t]);
    assert NetContributionSum([e]) == 400.25 by { assert [e][..0] == []; }
    assert PlnIncomeSum([t]) == 1000.0 by { assert [t][..0] == []; }
  }

  /** A tie in the tax: a profit of 150 PLN gives a tax base of exactly 28.5, which `round`
      declares as 28, the even neighbour. */
  lemma StocksTaxTieExample(t: TradeRecord)
    requires t.plnIncome == 150.0
    ensures var lines := StocksSumCsved(StockEvents([], [], [t]));
      lines[3].value == 150.0 && lines[4].value == 28.5 && lines[5].value == 28.0
  {
    EventSums([], [], [t]);
    assert PlnIncomeSum([t]) == 150.0 by { assert [t][..0] == []; }
    assert NetContributionSum([]) == 0.0;
    RoundHalfEvenUnique(150.0, 150);
    RoundHalfEvenUnique(28.5, 28);
  }
}
