/** Model of the older stocks.py at the repository root: the same three parsers over the same
    event objects, but reading amounts with `cash_to_float` and fixed character slices instead of
    `cash_float`, and a sum-up `Stock` that carries no file. */
module LegacyStocks {
  import opened Results
  import opened Text
  import Numbers
  import opened Dates
  import opened Stocks

  /** cash_to_float (stocks.py:175-177): every ',' deleted, then `float`. */
  function CashToFloat(s: string): (r: Result<real>)
    ensures r == Numbers.ParseFloat(Without(s, ','))
  {
    RemoveAllChar(s, ',');
    Numbers.ParseFloat(RemoveAll(s, ","))
  }

  /** The thousands separator does not change the amount: "10,000.00" reads as 10000.00. */
  lemma CashToFloatGrouped(a: string, b: string)
    requires ',' !in a && ',' !in b
    ensures CashToFloat(a + "," + b) == Numbers.ParseFloat(a + b)
  {
    WithoutGrouped(a, b);
  }

  lemma WithoutGrouped(a: string, b: string)
    requires ',' !in a && ',' !in b
    ensures Without(a + "," + b, ',') == a + b
  {
    WithoutAbsent(a, ',');
    WithoutAbsent(b, ',');
    assert Without(",", ',') == [] by {
      assert ","[1..] == [];
    }
    WithoutConcat(a, ",", ',');
    WithoutConcat(a + ",", b, ',');
    assert Without(a + ",", ',') == a;
  }

  lemma {:induction false} WithoutAbsent(s: string, c: char)
    requires c !in s
    ensures Without(s, c) == s
    decreases |s|
  {
    if s != [] {
      WithoutAbsent(s[1..], c);
    }
  }

  lemma {:induction false} WithoutConcat(s: string, t: string, c: char)
    ensures Without(s + t, c) == Without(s, c) + Without(t, c)
    decreases |s|
  {
    if s == [] {
      assert s + t == t;
    } else {
      assert (s + t)[1..] == s[1..] + t;
      WithoutConcat(s[1..], t, c);
    }
  }

  // ---------------------------------------------------------------- ESPP purchase

  /** The purchase date: the third token less its last six characters ("Shares"), MM-DD-YYYY. */
  function LegacyPurchaseDate(line: string): Result<Date> {
    var t :- At(Tokens(line), 2);
    ParseDate(DropLast(t, 6), '-')
  }

  /** The gross contribution: the last token through cash_to_float. */
  function LegacyContributionGross(line: string): Result<real> {
    var t :- LastToken(line);
    CashToFloat(t)
  }

  /** The rate: the last token less its first character ("$"). */
  function LegacyVestDayRatio(line: string): Result<real> {
    var t :- LastToken(line);
    Numbers.ParseFloat(DropFirst(t, 1))
  }

  /** The refund: the last token less its first two and its last character ("($" and ")"). */
  function LegacyContributionRefund(line: string): Result<real> {
    var t :- LastToken(line);
    Numbers.ParseFloat(DropLast(DropFirst(t, 2), 1))
  }

  /** The slices take off exactly the decorations they are written for. */
  lemma LegacySlicesStrip(date: string, amount: string)
    ensures DropLast(date + "Shares", 6) == date
    ensures DropFirst("$" + amount, 1) == amount
    ensures DropLast(DropFirst("($" + amount + ")", 2), 1) == amount
  {
    assert ("($" + amount + ")")[2..] == amount + ")";
  }

  function LegacySetPurchaseDate(r: EsppRecord, line: string): Result<EsppRecord> {
    if IsPurchaseDateLine(line) then var d :- LegacyPurchaseDate(line); Ok(r.(purchaseDate := d)) else Ok(r)
  }
  function LegacySetContributionGross(r: EsppRecord, line: string): Result<EsppRecord> {
    if IsForeignContributionsLine(line) then var v :- LegacyContributionGross(line); Ok(r.(plnContributionGross := v)) else Ok(r)
  }
  function LegacySetVestDayRatio(r: EsppRecord, line: string): Result<EsppRecord> {
    if IsExchangeRateLine(line) then var v :- LegacyVestDayRatio(line); Ok(r.(vestDayRatio := v)) else Ok(r)
  }
  function LegacySetContributionRefund(r: EsppRecord, line: string): Result<EsppRecord> {
    if IsRefundLine(line) then var v :- LegacyContributionRefund(line); Ok(r.(usdContributionRefund := v)) else Ok(r)
  }

  /** One pass of get_espp_from_text's loop over a line (stocks.py:187-196). */
  function LegacyEsppLine(r: EsppRecord, line: string): Result<EsppRecord> {
    var r1 :- LegacySetPurchaseDate(r, line);
    var r2 :- LegacySetContributionGross(r1, line);
    var r3 :- LegacySetVestDayRatio(r2, line);
    var r4 :- LegacySetContributionRefund(r3, line);
    SetSharesPurchased(r4, line)
  }

  function LegacyEsppScan(lines: seq<string>, i: nat, r: EsppRecord): Result<EsppRecord>
    requires i <= |lines|
    decreases |lines| - i
  {
    if i == |lines| then Ok(r)
    else
      var r' :- LegacyEsppLine(r, lines[i]);
      LegacyEsppScan(lines, i + 1, r')
  }

  /** get_espp_from_text (stocks.py:180-199) on values. */
  function GetEsppFromTextSpec(text: string): Parsed<EsppRecord> {
    if !Contains(text, PURCHASE_CONFIRMATION) then Absent
    else match LegacyEsppScan(SplitOn(text, '\n'), 0, NEW_ESPP)
      case Err(e) => Raised(e)
      case Ok(r) =>
        match NetContribution(r.plnContributionGross, r.usdContributionRefund, r.vestDayRatio)
        case Err(e) => Raised(e)
        case Ok(net) => Parsed(r.(plnContributionNet := net))
  }

  lemma LegacyEsppLineFields(r: EsppRecord, line: string)
    requires LegacyEsppLine(r, line).Ok?
    ensures var out := LegacyEsppLine(r, line).value;
      && (IsPurchaseDateLine(line) ==> LegacyPurchaseDate(line).Ok?)
      && out.purchaseDate == (if IsPurchaseDateLine(line) then LegacyPurchaseDate(line).value else r.purchaseDate)
      && (IsForeignContributionsLine(line) ==> LegacyContributionGross(line).Ok?)
      && out.plnContributionGross == (if IsForeignContributionsLine(line) then LegacyContributionGross(line).value else r.plnContributionGross)
      && (IsExchangeRateLine(line) ==> LegacyVestDayRatio(line).Ok?)
      && out.vestDayRatio == (if IsExchangeRateLine(line) then LegacyVestDayRatio(line).value else r.vestDayRatio)
      && (IsRefundLine(line) ==> LegacyContributionRefund(line).Ok?)
      && out.usdContributionRefund == (if IsRefundLine(line) then LegacyContributionRefund(line).value else r.usdContributionRefund)
      && (IsSharesPurchasedLine(line) ==> ShareCount(line).Ok?)
      && out.sharesPurchased == (if IsSharesPurchasedLine(line) then ShareCount(line).value else r.sharesPurchased)
      && out.plnContributionNet == r.plnContributionNet && out.file == r.file
  {
  }

  /** In get_espp_from_text the last line with a label sets its field. */
  lemma {:induction false} LegacyEsppLastMatchWins(lines: seq<string>, i: nat, r: EsppRecord)
    requires i <= |lines| && LegacyEsppScan(lines, i, r).Ok?
    ensures var out := LegacyEsppScan(lines, i, r).value;
      && Latest(lines, i, IsPurchaseDateLine, LegacyPurchaseDate, r.purchaseDate) == Ok(out.purchaseDate)
      && Latest(lines, i, IsForeignContributionsLine, LegacyContributionGross, r.plnContributionGross) == Ok(out.plnContributionGross)
      && Latest(lines, i, IsExchangeRateLine, LegacyVestDayRatio, r.vestDayRatio) == Ok(out.vestDayRatio)
      && Latest(lines, i, IsRefundLine, LegacyContributionRefund, r.usdContributionRefund) == Ok(out.usdContributionRefund)
      && Latest(lines, i, IsSharesPurchasedLine, ShareCount, r.sharesPurchased) == Ok(out.sharesPurchased)
      && out.plnContributionNet == r.plnContributionNet && out.file == r.file
    decreases |lines| - i
  {
    if i < |lines| {
      var r1 := LegacyEsppLine(r, lines[i]).value;
      LegacyEsppLineFields(r, lines[i]);
      LegacyEsppLastMatchWins(lines, i + 1, r1);
      LatestStep(lines, i, IsPurchaseDateLine, LegacyPurchaseDate, r.purchaseDate);
      LatestStep(lines, i, IsForeignContributionsLine, LegacyContributionGross, r.plnContributionGross);
      LatestStep(lines, i, IsExchangeRateLine, LegacyVestDayRatio, r.vestDayRatio);
      LatestStep(lines, i, IsRefundLine, LegacyContributionRefund, r.usdContributionRefund);
      LatestStep(lines, i, IsSharesPurchasedLine, ShareCount, r.sharesPurchased);
    }
  }

  /** The body of get_espp_from_text's loop (stocks.py:187-196) on the purchase object. */
  method ReadEsppLine(stock: EsppStock, line: string) returns (outcome: Outcome)
    modifies stock
    ensures match LegacyEsppLine(old(stock.Snapshot()), line)
      case Ok(r) => outcome == Pass && stock.Snapshot() == r
      case Err(e) => outcome == Fail(e)
  {
    if IsPurchaseDateLine(line) {
      var d := LegacyPurchaseDate(line);
      if d.Err? { return Fail(d.error); }
      stock.purchaseDate := d.value;
    }
    assert LegacySetPurchaseDate(old(stock.Snapshot()), line) == Ok(stock.Snapshot());
    ghost var r1 := stock.Snapshot();
    if IsForeignContributionsLine(line) {
      var v := LegacyContributionGross(line);
      if v.Err? { return Fail(v.error); }
      stock.plnContributionGross := v.value;
    }
    assert LegacySetContributionGross(r1, line) == Ok(stock.Snapshot());
    ghost var r2 := stock.Snapshot();
    if IsExchangeRateLine(line) {
      var v := LegacyVestDayRatio(line);
      if v.Err? { return Fail(v.error); }
      stock.vestDayRatio := v.value;
    }
    assert LegacySetVestDayRatio(r2, line) == Ok(stock.Snapshot());
    ghost var r3 := stock.Snapshot();
    if IsRefundLine(line) {
      var v := LegacyContributionRefund(line);
      if v.Err? { return Fail(v.error); }
      stock.usdContributionRefund := v.value;
    }
    assert LegacySetContributionRefund(r3, line) == Ok(stock.Snapshot());
    ghost var r4 := stock.Snapshot();
    if IsSharesPurchasedLine(line) {
      var n := ShareCount(line);
      if n.Err? { return Fail(n.error); }
      stock.sharesPurchased := n.value;
    }
    assert SetSharesPurchased(r4, line) == Ok(stock.Snapshot());
    return Pass;
  }

  /** get_espp_from_text (stocks.py:180-199). */
  method GetEsppFromText(text: string) returns (r: Parsed<EsppStock>)
    ensures match GetEsppFromTextSpec(text)
      case Absent => r.Absent?
      case Raised(e) => r == Raised(e)
      case Parsed(rec) => r.Parsed? && fresh(r.value) && r.value.Snapshot() == rec
  {
    if !Contains(text, PURCHASE_CONFIRMATION) {
      return Absent;
    }
    var lines := SplitOn(text, '\n');
    var stock := new EsppStock();
    for i := 0 to |lines|
      invariant LegacyEsppScan(lines, 0, NEW_ESPP) == LegacyEsppScan(lines, i, stock.Snapshot())
    {
      var outcome := ReadEsppLine(stock, lines[i]);
      if outcome.Fail? {
        return Raised(outcome.error);
      }
    }
    var outcome := stock.CalculatePlnContributionNet();
    if outcome.Fail? {
      return Raised(outcome.error);
    }
    return Parsed(stock);
  }

  // ---------------------------------------------------------------- Restricted stock release

  /** The gain: the last token less its "$", through cash_to_float. */
  function LegacyReleaseGain(line: string): Result<real> {
    var t :- LastToken(line);
    CashToFloat(DropFirst(t, 1))
  }

  function LegacySetReleaseGain(r: RsRecord, line: string): Result<RsRecord> {
    if IsTotalGainLine(line) then var v :- LegacyReleaseGain(line); Ok(r.(releaseGain := v)) else Ok(r)
  }

  /** One pass of get_rs_from_text's loop over a line (stocks.py:209-214). */
  function LegacyRsLine(r: RsRecord, line: string): Result<RsRecord> {
    var r1 :- SetReleaseDate(r, line);
    var r2 :- SetSharesReleased(r1, line);
    LegacySetReleaseGain(r2, line)
  }

  function LegacyRsScan(lines: seq<string>, i: nat, r: RsRecord): Result<RsRecord>
    requires i <= |lines|
    decreases |lines| - i
  {
    if i == |lines| then Ok(r)
    else
      var r' :- LegacyRsLine(r, lines[i]);
      LegacyRsScan(lines, i + 1, r')
  }

  /** get_rs_from_text (stocks.py:202-215) on values. */
  function GetRsFromTextSpec(text: string): Parsed<RsRecord> {
    if !Contains(text, RELEASE_CONFIRMATION) then Absent
    else match LegacyRsScan(SplitOn(text, '\n'), 0, NEW_RS)
      case Err(e) => Raised(e)
      case Ok(r) => Parsed(r)
  }

  lemma LegacyRsLineFields(r: RsRecord, line: string)
    requires LegacyRsLine(r, line).Ok?
    ensures var out := LegacyRsLine(r, line).value;
      && (IsReleaseDateLine(line) ==> ReleaseDate(line).Ok?)
      && out.releaseDate == (if IsReleaseDateLine(line) then ReleaseDate(line).value else r.releaseDate)
      && (IsSharesReleasedLine(line) ==> ShareCount(line).Ok?)
      && out.sharesReleased == (if IsSharesReleasedLine(line) then ShareCount(line).value else r.sharesReleased)
      && (IsTotalGainLine(line) ==> LegacyReleaseGain(line).Ok?)
      && out.releaseGain == (if IsTotalGainLine(line) then LegacyReleaseGain(line).value else r.releaseGain)
      && out.file == r.file
  {
  }

  /** In get_rs_from_text the last line with a label sets its field. */
  lemma {:induction false} LegacyRsLastMatchWins(lines: seq<string>, i: nat, r: RsRecord)
    requires i <= |lines| && LegacyRsScan(lines, i, r).Ok?
    ensures var out := LegacyRsScan(lines, i, r).value;
      && Latest(lines, i, IsReleaseDateLine, ReleaseDate, r.releaseDate) == Ok(out.releaseDate)
      && Latest(lines, i, IsSharesReleasedLine, ShareCount, r.sharesReleased) == Ok(out.sharesReleased)
      && Latest(lines, i, IsTotalGainLine, LegacyReleaseGain, r.releaseGain) == Ok(out.releaseGain)
      && out.file == r.file
    decreases |lines| - i
  {
    if i < |lines| {
      var r1 := LegacyRsLine(r, lines[i]).value;
      LegacyRsLineFields(r, lines[i]);
      LegacyRsLastMatchWins(lines, i + 1, r1);
      LatestStep(lines, i, IsReleaseDateLine, ReleaseDate, r.releaseDate);
      LatestStep(lines, i, IsSharesReleasedLine, ShareCount, r.sharesReleased);
      LatestStep(lines, i, IsTotalGainLine, LegacyReleaseGain, r.releaseGain);
    }
  }

  /** The body of get_rs_from_text's loop (stocks.py:209-214) on the vest object. */
  method ReadRsLine(rest: RestrictedStock, line: string) returns (outcome: Outcome)
    modifies rest
    ensures match LegacyRsLine(old(rest.Snapshot()), line)
      case Ok(r) => outcome == Pass && rest.Snapshot() == r
      case Err(e) => outcome == Fail(e)
  {
    if IsReleaseDateLine(line) {
      var d := ReleaseDate(line);
      if d.Err? { return Fail(d.error); }
      rest.releaseDate := d.value;
    }
    assert SetReleaseDate(old(rest.Snapshot()), line) == Ok(rest.Snapshot());
    ghost var r1 := rest.Snapshot();
    if IsSharesReleasedLine(line) {
      var n := ShareCount(line);
      if n.Err? { return Fail(n.error); }
      rest.sharesReleased := n.value;
    }
    assert SetSharesReleased(r1, line) == Ok(rest.Snapshot());
    ghost var r2 := rest.Snapshot();
    if IsTotalGainLine(line) {
      var v := LegacyReleaseGain(line);
      if v.Err? { return Fail(v.error); }
      rest.releaseGain := v.value;
    }
    assert LegacySetReleaseGain(r2, line) == Ok(rest.Snapshot());
    return Pass;
  }

  /** get_rs_from_text (stocks.py:202-215). */
  method GetRsFromText(text: string) returns (r: Parsed<RestrictedStock>)
    ensures match GetRsFromTextSpec(text)
      case Absent => r.Absent?
      case Raised(e) => r == Raised(e)
      case Parsed(rec) => r.Parsed? && fresh(r.value) && r.value.Snapshot() == rec
  {
    if !Contains(text, RELEASE_CONFIRMATION) {
      return Absent;
    }
    var lines := SplitOn(text, '\n');
    var rest := new RestrictedStock();
    for i := 0 to |lines|
      invariant LegacyRsScan(lines, 0, NEW_RS) == LegacyRsScan(lines, i, rest.Snapshot())
    {
      var outcome := ReadRsLine(rest, lines[i]);
      if outcome.Fail? {
        return Raised(outcome.error);
      }
    }
    return Parsed(rest);
  }

  // ---------------------------------------------------------------- Trade confirmation

  /** The net income: the last token less its "$", through cash_to_float. */
  function LegacyNetIncome(line: string): Result<real> {
    var t :- LastToken(line);
    CashToFloat(DropFirst(t, 1))
  }

  function LegacySetNetIncome(r: TradeRecord, line: string): Result<TradeRecord> {
    if IsNetAmountLine(line) then var v :- LegacyNetIncome(line); Ok(r.(usdNetIncome := v)) else Ok(r)
  }

  /** One pass of get_trade_from_text's loop over a line (stocks.py:225-230). */
  function LegacyTradeLine(r: TradeRecord, line: string): Result<TradeRecord> {
    var r1 :- SetStockPlan(r, line);
    LegacySetNetIncome(r1, line)
  }

  function LegacyTradeScan(lines: seq<string>, i: nat, r: TradeRecord): Result<TradeRecord>
    requires i <= |lines|
    decreases |lines| - i
  {
    if i == |lines| then Ok(r)
    else
      var r' :- LegacyTradeLine(r, lines[i]);
      LegacyTradeScan(lines, i + 1, r')
  }

  /** get_trade_from_text (stocks.py:218-231) on values. */
  function GetTradeFromTextSpec(text: string): Parsed<TradeRecord> {
    if !Contains(text, TRADE_CONFIRMATION) then Absent
    else match LegacyTradeScan(SplitOn(text, '\n'), 0, NEW_TRADE)
      case Err(e) => Raised(e)
      case Ok(r) => Parsed(r)
  }

  lemma LegacyTradeLineFields(r: TradeRecord, line: string)
    requires LegacyTradeLine(r, line).Ok?
    ensures var out := LegacyTradeLine(r, line).value;
      && (IsStockPlanLine(line) ==> SharesSold(line).Ok? && TradeDate(line).Ok?)
      && out.sharesSold == (if IsStockPlanLine(line) then SharesSold(line).value else r.sharesSold)
      && out.tradeDate == (if IsStockPlanLine(line) then TradeDate(line).value else r.tradeDate)
      && (IsNetAmountLine(line) ==> LegacyNetIncome(line).Ok?)
      && out.usdNetIncome == (if IsNetAmountLine(line) then LegacyNetIncome(line).value else r.usdNetIncome)
      && out.ratioDate == r.ratioDate && out.ratioValue == r.ratioValue
      && out.plnIncome == r.plnIncome && out.file == r.file
  {
  }

  /** In get_trade_from_text the last "Stock Plan" line gives the count and the date and the
      last "NET AMOUNT" line the net income. */
  lemma {:induction false} LegacyTradeLastMatchWins(lines: seq<string>, i: nat, r: TradeRecord)
    requires i <= |lines| && LegacyTradeScan(lines, i, r).Ok?
    ensures var out := LegacyTradeScan(lines, i, r).value;
      && Latest(lines, i, IsStockPlanLine, SharesSold, r.sharesSold) == Ok(out.sharesSold)
      && Latest(lines, i, IsStockPlanLine, TradeDate, r.tradeDate) == Ok(out.tradeDate)
      && Latest(lines, i, IsNetAmountLine, LegacyNetIncome, r.usdNetIncome) == Ok(out.usdNetIncome)
      && out.ratioDate == r.ratioDate && out.ratioValue == r.ratioValue
      && out.plnIncome == r.plnIncome && out.file == r.file
    decreases |lines| - i
  {
    if i < |lines| {
      var r1 := LegacyTradeLine(r, lines[i]).value;
      LegacyTradeLineFields(r, lines[i]);
      LegacyTradeLastMatchWins(lines, i + 1, r1);
      LatestStep(lines, i, IsStockPlanLine, SharesSold, r.sharesSold);
      LatestStep(lines, i, IsStockPlanLine, TradeDate, r.tradeDate);
      LatestStep(lines, i, IsNetAmountLine, LegacyNetIncome, r.usdNetIncome);
    }
  }

  /** The body of get_trade_from_text's loop (stocks.py:225-230) on the trade object. */
  method ReadTradeLine(trade: Trade, line: string) returns (outcome: Outcome)
    modifies trade
    ensures match LegacyTradeLine(old(trade.Snapshot()), line)
      case Ok(r) => outcome == Pass && trade.Snapshot() == r
      case Err(e) => outcome == Fail(e)
  {
    if IsStockPlanLine(line) {
      var n := SharesSold(line);
      if n.Err? { return Fail(n.error); }
      trade.sharesSold := n.value;
      var d := TradeDate(line);
      if d.Err? { return Fail(d.error); }
      trade.tradeDate := d.value;
    }
    assert SetStockPlan(old(trade.Snapshot()), line) == Ok(trade.Snapshot());
    ghost var r1 := trade.Snapshot();
    if IsNetAmountLine(line) {
      var v := LegacyNetIncome(line);
      if v.Err? { return Fail(v.error); }
      trade.usdNetIncome := v.value;
    }
    assert LegacySetNetIncome(r1, line) == Ok(trade.Snapshot());
    return Pass;
  }

  /** get_trade_from_text (stocks.py:218-231). */
  method GetTradeFromText(text: string) returns (r: Parsed<Trade>)
    ensures match GetTradeFromTextSpec(text)
      case Absent => r.Absent?
      case Raised(e) => r == Raised(e)
      case Parsed(rec) => r.Parsed? && fresh(r.value) && r.value.Snapshot() == rec
  {
    if !Contains(text, TRADE_CONFIRMATION) {
      return Absent;
    }
    var lines := SplitOn(text, '\n');
    var trade := new Trade();
    for i := 0 to |lines|
      invariant LegacyTradeScan(lines, 0, NEW_TRADE) == LegacyTradeScan(lines, i, trade.Snapshot())
    {
      var outcome := ReadTradeLine(trade, lines[i]);
      if outcome.Fail? {
        return Raised(outcome.error);
      }
    }
    return Parsed(trade);
  }

  // ---------------------------------------------------------------- Sum-up events

  /** Stock (stocks.py:127-172): the sum-up event of the older version, without a file. */
  datatype Stock = Stock(
    buyDate: Option<Date>, buySharesCount: int, buyTaxDeductible: real,
    saleDate: Option<Date>, saleSharesCount: int, saleIncome: real)

  /** Stock(base_object) (stocks.py:130-149): the same projection as the current StockEvent,
      less the file. */
  function NewStock(src: StockSource): (s: Stock)
    ensures var e := NewStockEvent(src);
      s == Stock(e.buyDate, e.buySharesCount, e.buyTaxDeductible, e.saleDate, e.saleSharesCount, e.saleIncome)
  {
    match src
    case FromEspp(e) => Stock(Some(e.purchaseDate), e.sharesPurchased, e.plnContributionNet, None, 0, 0.0)
    case FromRestricted(r) => Stock(Some(r.releaseDate), r.sharesReleased, 0.0, None, 0, 0.0)
    case FromTrade(t) => Stock(None, 0, 0.0, Some(t.tradeDate), t.sharesSold, t.plnIncome)
  }

  /** A purchase or a vest fills only the buy side, a trade only the sale side; a vest deducts
      nothing and a purchase deducts its net contribution. */
  lemma StockSides(src: StockSource)
    ensures src.FromTrade? <==> NewStock(src).buyDate.None?
    ensures src.FromTrade? <==> NewStock(src).saleDate.Some?
    ensures src.FromTrade? ==> NewStock(src).buySharesCount == 0 && NewStock(src).buyTaxDeductible == 0.0
    ensures !src.FromTrade? ==> NewStock(src).saleSharesCount == 0 && NewStock(src).saleIncome == 0.0
    ensures src.FromRestricted? ==> NewStock(src).buyTaxDeductible == 0.0
    ensures src.FromEspp? ==> NewStock(src).buyTaxDeductible == src.espp.plnContributionNet
    ensures src.FromTrade? ==> NewStock(src).saleIncome == src.trade.plnIncome
  {
  }
}
