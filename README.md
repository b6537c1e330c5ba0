# etrade_tax_poland in Dafny

This project models the core of a tool that computes Polish personal income tax (form PIT-38) from E*TRADE documents. It covers both versions of the tool: the current package under `src/etrade_tax_poland/` and the older scripts at the repository root. There are three parts:

- **Statement parsers.** Each parser splits extracted PDF text into lines and looks for anchor labels. It then reads whitespace tokens at fixed positions on or near the labelled lines. There are parsers for:
  - ESPP purchase, restricted-stock release and trade confirmations (`Stocks`, `LegacyStocks`);
  - stock dividends in two statement layouts, and treasury-liquidity-fund dividends (`Dividends`, `LegacyDividends`).
- **Exchange-rate and price caches.**
  - `NbpRates` models the USD/PLN cache of the National Bank of Poland. It maps day keys to a rate or a "" tombstone and asks a web service for days it lacks. It also models the backward search for "the day before" an event.
  - `IntcPrices` models the read-only INTC price cache and its ten-day backward lookup.
- **Tax arithmetic.**
  - Dividends are converted to PLN with a round-to-hundredths chain.
  - The ESPP net contribution and the PLN income of a trade are computed.
  - Events are projected onto a buy side and a sell side.
  - The capital-gains and dividend summaries use `round_up` and whole-zloty rounding (`Common`).

The events are built up field by field, so they are classes. Each class has a `Snapshot()` record. Each parser loop is a method proved equal to a scan function over the lines, and the parser lemmas are stated about those scan functions. Money is an exact `real`, and text is `seq<char>`. Dates are `(year, month, day)` values when parsed and integer day numbers in the caches. Each cache is a `map`.

The backward search of `date_to_usd_pln` is modelled as the code does it. Its docstring asks for the rate of the day before the event. The code steps back two days for each day without a rate (see Findings).

## Model

| member | source | states |
|---|---|---|
| Common.RoundUp | src/etrade_tax_poland/common.py:8-10 | round_up(x) is a whole number of hundredths with x <= r < x + 0.01 |
| Common.RoundUpLeast | src/etrade_tax_poland/common.py:8-10 | round_up(x) is the least whole number of hundredths not below x |
| Common.RoundUpIdempotent | src/etrade_tax_poland/common.py:8-10 | rounding up twice is rounding up once |
| Common.RoundUpMonotone | src/etrade_tax_poland/common.py:8-10 | x <= y implies round_up(x) <= round_up(y) |
| Common.RoundHalfEven | src/etrade_tax_poland/stocks.py:268-270 | Python round(x, 0) is within 0.5 of x and goes to the even integer on a tie |
| Common.RoundHalfEvenUnique | src/etrade_tax_poland/stocks.py:268-270 | those two properties single out the rounded value |
| Common.RoundCents | src/etrade_tax_poland/dividends.py:68-70 | round(x, 2) is a whole number of hundredths within 0.005 of x |
| Common.RoundCentsOfCents | src/etrade_tax_poland/dividends.py:68-70 | round(x, 2) leaves a whole number of hundredths unchanged |
| Text.ContainsIff | src/etrade_tax_poland/stocks.py:198 | the substring test holds exactly when the label occurs at some position |
| Text.TokensOfJoinWords | src/etrade_tax_poland/stocks.py:205 | split() gives back the words of a line written with single spaces |
| Text.SplitOnJoin | src/etrade_tax_poland/stocks.py:200 | split("\n") gives back the lines that were joined with newlines |
| Text.RemoveAllChar | stocks.py:177 | replace(",", "") deletes every comma and nothing else |
| Text.At | src/etrade_tax_poland/stocks.py:251 | list indexing with a negative index counts from the end, and it raises IndexError exactly outside -n..n-1 |
| Text.Window | src/etrade_tax_poland/dividends.py:82 | lines[i:i+6] has min(6, n-i) lines, the ones from i on |
| Text.LastMatch | src/etrade_tax_poland/dividends.py:80-85 | the index found is the last line that matches, and no later line matches |
| Numbers.ParseIntDecimal | src/etrade_tax_poland/stocks.py:251 | int() reads back what str() writes, with or without a minus sign |
| Numbers.ParseFloatOfInt | src/etrade_tax_poland/stocks.py:218 | every string int() accepts is accepted by float() with the same value |
| Numbers.ParseFloatCents | dividends.py:14-16 | float() of "n.cc" is n + cc/100 |
| Numbers.Truncate | src/etrade_tax_poland/stocks.py:218 | int() of a float truncates toward zero |
| Dates.ParseFormatDate | dividends.py:13 | strptime reads back the "MM/DD/YYYY" text of any valid date |
| Dates.ExpandYearParses | src/etrade_tax_poland/stocks.py:252-253 | "MM/DD/YY" expanded to "MM/DD/20YY" parses to that date of this century |
| Stocks.Trade.constructor | src/etrade_tax_poland/stocks.py:13-21 | all fields at the constructor defaults: epoch trade and ratio dates, zero count and amounts, file "" |
| Stocks.Trade.InsertCurrenciesRatio | src/etrade_tax_poland/stocks.py:52-56 | stores the rate and its date and sets PLN income to rate × USD net, unrounded; the other fields are unchanged |
| Stocks.EsppStock.constructor | src/etrade_tax_poland/stocks.py:62-70 | all fields at the constructor defaults: epoch purchase date, zero amounts, rate and count, file "" |
| Stocks.NetContribution | src/etrade_tax_poland/stocks.py:72-75 | succeeds exactly when the rate is nonzero; the refund in PLN is rounded to within 0.005 and to a whole number of hundredths |
| Stocks.EsppStock.CalculatePlnContributionNet | src/etrade_tax_poland/stocks.py:72-75 | sets the net contribution to NetContribution; on a zero rate it fails with ZeroDivisionError and changes nothing |
| Stocks.EsppStock.ReadLine | src/etrade_tax_poland/stocks.py:203-218 | one pass of the loop body updates the object exactly as EsppLine does, or fails with its error |
| Stocks.EsppLineFields | src/etrade_tax_poland/stocks.py:203-218 | a line overwrites each field whose label it carries and leaves the other fields alone |
| Stocks.EsppLastMatchWins | src/etrade_tax_poland/stocks.py:202-218 | each field ends as the value read from the last line with its label, or keeps its starting value |
| Stocks.EsppWithoutRateRaises | src/etrade_tax_poland/stocks.py:198-219 | a purchase confirmation without a rate line raises, and the error is ZeroDivisionError when every line parsed |
| Stocks.EsppFromText | src/etrade_tax_poland/stocks.py:196-220 | the empty marker without the purchase label, otherwise the raised error or a fresh object equal to EsppFromTextSpec |
| Stocks.RestrictedStock.constructor | src/etrade_tax_poland/stocks.py:110-115 | all fields at the constructor defaults: epoch release date, zero count and gain, file "" |
| Stocks.RsLineFields | src/etrade_tax_poland/stocks.py:230-238 | a line overwrites each field whose label it carries and leaves the other fields alone |
| Stocks.RsLastMatchWins | src/etrade_tax_poland/stocks.py:229-238 | each field ends as the value read from the last line with its label, or keeps its starting value |
| Stocks.RestrictedStock.ReadLine | src/etrade_tax_poland/stocks.py:230-238 | one pass of the loop body updates the object exactly as RsLine does |
| Stocks.RsFromText | src/etrade_tax_poland/stocks.py:223-239 | the empty marker without the release label, otherwise the raised error or a fresh object equal to RsFromTextSpec |
| Stocks.TradeLineFields | src/etrade_tax_poland/stocks.py:249-256 | a "Stock Plan" line sets the share count from token 5 and the date from the expanded token 0; a "NET AMOUNT" line sets the net; nothing else changes |
| Stocks.TradeLastMatchWins | src/etrade_tax_poland/stocks.py:248-256 | the count and date come from the last "Stock Plan" line and the net from the last "NET AMOUNT" line; rate and PLN income are untouched |
| Stocks.Trade.ReadLine | src/etrade_tax_poland/stocks.py:249-256 | one pass of the loop body updates the object exactly as TradeLine does |
| Stocks.TradeFromText | src/etrade_tax_poland/stocks.py:242-257 | the empty marker without TRADECONFIRMATION, otherwise the raised error or a fresh object equal to TradeFromTextSpec |
| Stocks.NewStockEvent | src/etrade_tax_poland/stocks.py:144-163 | a purchase fills only the buy side, with the net contribution as deductible. A vest fills only the buy side, with deductible 0. A trade fills only the sale side, with the PLN income. The side left unset keeps no date and zero amounts. The file is copied in every case |
| Stocks.StockEvents | src/etrade_tax_poland/stocks.py:302 | one event per source, in the order purchases, vests, trades, each the NewStockEvent of its source |
| Stocks.SumsDistribute | src/etrade_tax_poland/stocks.py:265-266 | the income and deductible sums split over concatenation |
| Stocks.EventSums | src/etrade_tax_poland/stocks.py:265-266 | total income is the sum of the trades' PLN income; total deductible is the sum of the purchases' net contributions; vests add nothing |
| Stocks.StocksSumCsved | src/etrade_tax_poland/stocks.py:260-278 | [] exactly for no events. Otherwise six lines in order: income, deductible, profit = income − deductible, profit rounded to the nearest whole number with ties to even (Python's `round`), tax base = 19% of the rounded profit, and the tax rounded the same way |
| Stocks.StocksTaxTieExample | src/etrade_tax_poland/stocks.py:268-270 | a profit of 150 gives a tax base of exactly 28.5, declared as 28 |
| Stocks.StocksSummaryExample | src/etrade_tax_poland/stocks.py:260-278 | a profit of 599.75 is declared as 600, with 114 of tax |
| LegacyStocks.CashToFloat | stocks.py:175-177 | float() of the token with every comma removed |
| LegacyStocks.CashToFloatGrouped | stocks.py:175-177 | a thousands comma does not change the amount |
| LegacyStocks.LegacySlicesStrip | stocks.py:188-194 | the fixed slices remove exactly "Shares", "$" and "($" … ")" |
| LegacyStocks.LegacyEsppLineFields | stocks.py:187-196 | a line overwrites each field whose label it carries and leaves the other fields alone |
| LegacyStocks.LegacyEsppLastMatchWins | stocks.py:186-196 | each field ends as the value from the last line with its label |
| LegacyStocks.ReadEsppLine | stocks.py:187-196 | one pass of the loop body updates the purchase object exactly as LegacyEsppLine does |
| LegacyStocks.GetEsppFromText | stocks.py:180-199 | the empty marker without the purchase label, otherwise the raised error or a fresh object equal to GetEsppFromTextSpec |
| LegacyStocks.LegacyRsLineFields | stocks.py:209-214 | a line overwrites each field whose label it carries |
| LegacyStocks.LegacyRsLastMatchWins | stocks.py:208-214 | each field ends as the value from the last line with its label |
| LegacyStocks.ReadRsLine | stocks.py:209-214 | one pass of the loop body updates the vest object exactly as LegacyRsLine does |
| LegacyStocks.GetRsFromText | stocks.py:202-215 | the empty marker without the release label, otherwise the raised error or a fresh object equal to GetRsFromTextSpec |
| LegacyStocks.LegacyTradeLineFields | stocks.py:225-230 | a line overwrites the sale fields whose label it carries |
| LegacyStocks.LegacyTradeLastMatchWins | stocks.py:224-230 | the count and date come from the last "Stock Plan" line and the net from the last "NET AMOUNT" line |
| LegacyStocks.ReadTradeLine | stocks.py:225-230 | one pass of the loop body updates the trade object exactly as LegacyTradeLine does |
| LegacyStocks.GetTradeFromText | stocks.py:218-231 | the empty marker without TRADECONFIRMATION, otherwise the raised error or a fresh object equal to GetTradeFromTextSpec |
| LegacyStocks.NewStock | stocks.py:130-149 | the same projection as StockEvent, without the file |
| LegacyStocks.StockSides | stocks.py:138-149 | a purchase or vest fills only the buy side; a vest deducts 0 and a purchase its net contribution; a trade fills only the sale side |
| Dividends.Converted | src/etrade_tax_poland/dividends.py:64-71 | tax due = flat-rate tax − tax paid; the rate and its date are stored; the USD amounts, pay date and file are unchanged |
| Dividends.ConvertedRounding | src/etrade_tax_poland/dividends.py:68-70 | PLN gross, flat-rate tax (19% of the rounded gross) and tax paid are each a whole number of hundredths within 0.005 of the exact value |
| Dividends.UntaxedDividendOwesFlatRate | src/etrade_tax_poland/dividends.py:70-71 | with no tax withheld, all of the flat-rate tax is due |
| Dividends.Dividend.InsertCurrenciesRatio | src/etrade_tax_poland/dividends.py:64-71 | the new state is Converted of the old state |
| Dividends.Dividend.constructor | src/etrade_tax_poland/dividends.py:13-25 | the amounts given, the PLN fields 0, the file "" |
| Dividends.StockDividendAbsent | src/etrade_tax_poland/dividends.py:80-88 | the parser returns {} exactly when no line is a stock-dividend anchor |
| Dividends.StockDividendFromLastAnchor | src/etrade_tax_poland/dividends.py:80-82 | the dividend is read from the up-to-six lines starting at the last anchor in the text (whose first line, being an anchor, has no "LIQUIDITY") |
| Dividends.GetStockDividendFromText | src/etrade_tax_poland/dividends.py:74-114 | the loop's window and year line are the last anchor's and the last heading's; the result is StockDividendSpec |
| Dividends.LiquidityDividend | src/etrade_tax_poland/dividends.py:126-136 | a liquidity dividend has tax 0 and net = gross |
| Dividends.LiquidityStep | src/etrade_tax_poland/dividends.py:122-136 | a heading sets the year to its last token; an anchor appends one dividend; any other line changes nothing |
| Dividends.LiquidityYear | src/etrade_tax_poland/dividends.py:123-125 | the year in force is the last token of the latest preceding heading |
| Dividends.MatchesAnchorsAppend | src/etrade_tax_poland/dividends.py:126-136 | an anchor line extends the one-to-one match of dividends and anchors by the dividend read at it |
| Dividends.MatchesAnchorsSkip | src/etrade_tax_poland/dividends.py:122-126 | a line that is not an anchor keeps the match |
| Dividends.LiquidityOnePerAnchor | src/etrade_tax_poland/dividends.py:122-137 | one dividend per anchor line, in text order, each read at its anchor with the year in force, with tax 0 and net = gross |
| Dividends.LiquidityNeedsNextLine | src/etrade_tax_poland/dividends.py:132-135 | an anchor on the last line without "Prior Year" raises IndexError |
| Dividends.LiquidityErrorSticks | src/etrade_tax_poland/dividends.py:122-137 | once one line raises, the whole parse raises that error |
| Dividends.ReadLiquidityLine | src/etrade_tax_poland/dividends.py:123-136 | one pass of the loop body takes the loop state over the first i lines to the state over the first i+1, or raises its error; it only appends, and only fresh dividend objects |
| Dividends.ReadLiquidityLines | src/etrade_tax_poland/dividends.py:122-136 | the objects' snapshots are the loop's result over all lines, every object is new, or the loop's error is raised |
| Dividends.GetLiquidityDividendsFromText | src/etrade_tax_poland/dividends.py:117-137 | the objects' snapshots are LiquidityDividendsSpec, or the loop raises its error |
| Dividends.DivsSumCsved | src/etrade_tax_poland/dividends.py:140-153 | [] exactly for none. Otherwise the summed flat-rate tax and the summed tax paid are each rounded up to hundredths, and the third line is their difference |
| Dividends.DivsSumOfCents | src/etrade_tax_poland/dividends.py:145-147 | totals that are already whole hundredths are reported unchanged |
| LegacyDividends.NewLegacyDividend | dividends.py:11-22 | succeeds exactly when the date and all three amounts parse, and then holds their values; otherwise ValueError |
| LegacyDividends.NewLegacyDividendReads | dividends.py:11-16 | a date and amounts written as the statements print them are read back exactly |
| LegacyDividends.LegacyDividendAbsent | dividends.py:71-78 | the parser returns {} exactly when no line names an INTEL CORP dividend |
| LegacyDividends.GetDividendFromText | dividends.py:65-96 | the last INTEL CORP anchor and the last heading are used; the result is LegacyDividendSpec |
| LegacyDividends.DividendsSumUpLines | dividends.py:99-111 | [] exactly for none; otherwise the exact sums of flat-rate tax, tax paid and tax due |
| LegacyDividends.TaxDueSumBalanced | dividends.py:62 | when every dividend's due is flat − paid, the totals balance the same way |
| LegacyDividends.SumUpDiffOfConverted | dividends.py:103-111 | for converted dividends the third summary line is the first minus the second |
| NbpRates.Request | src/etrade_tax_poland/cache/nbp.py:30-49 | a rate found is stored under the key, an unavailable day stores the tombstone, and a script that runs out leaves the cache alone; the answers consumed are counted as requests |
| NbpRates.OkAnswerStored | src/etrade_tax_poland/cache/nbp.py:38-41 | a 200 answer returns its own mid rate and stores it under the day, with one request |
| NbpRates.OtherStatusRetries | src/etrade_tax_poland/cache/nbp.py:46-49 | a status other than 200 and 404 is asked again, with the cache untouched and one more request |
| NbpRates.RequestConsumesPrefix | src/etrade_tax_poland/cache/nbp.py:30-49 | the answers consumed are the first ones of the script |
| NbpRates.GetRatioSpec | src/etrade_tax_poland/cache/nbp.py:22-49 | a cached key gives its rate, or ValueError when falsy, with no request; only the requested key is ever written; nothing is removed |
| NbpRates.SecondLookupIsCached | src/etrade_tax_poland/cache/nbp.py:24-28 | looking a fetched day up again makes no request and returns the same nonzero rate |
| NbpRates.TransientErrorRetries | src/etrade_tax_poland/cache/nbp.py:34-37 | a proxy error or connect timeout is asked again, with the cache unchanged |
| NbpRates.NotFoundHandling | etrade_common.py:73-80 | the current caches tombstone any 404; the older one only the "Brak danych" 404, and it retries other 404s |
| NbpRates.NbpRatiosCache.GetRatio | src/etrade_tax_poland/nbp.py:41-68 | the outcome, cache, remaining answers and request log are those of GetRatioSpec |
| NbpRates.NbpRatiosCache.Fetch | etrade_common.py:61-80 | the retry loop's outcome, cache and request log are those of Request |
| NbpRates.NbpRatiosCache.constructor | src/etrade_tax_poland/nbp.py:22-26 | the cache without a file is {"_": ""}, and any 404 writes a tombstone |
| NbpRates.NbpRatiosCache.Legacy | etrade_common.py:40-44 | the older cache without a file is empty, and only the "Brak danych" 404 writes a tombstone |
| NbpRates.NbpRatiosCache.FromFile | src/etrade_tax_poland/cache/cache_file.py:15-20 | a cache file replaces the initial contents |
| NbpRates.RateService.Get | src/etrade_tax_poland/cache/nbp.py:33 | each request consumes the next answer and logs the day asked for |
| NbpRates.SearchBack | src/etrade_tax_poland/cache/nbp.py:55-64 | the search only adds cache entries, never changes or removes one, and terminates |
| NbpRates.SearchBackFinds | src/etrade_tax_poland/cache/nbp.py:57-63 | the day found is a candidate with its rate in the cache; every nearer candidate is a tombstone or a zero; no answer only once the script is used up |
| NbpRates.DateToUsdPlnFinds | src/etrade_tax_poland/cache/nbp.py:55-64 | the day returned is strictly before d, an odd number of days back, with its rate cached; d−1, d−3, … above it are all unavailable |
| NbpRates.DateToUsdPln | etrade_common.py:86-95 | the method's result, cache and request log are those of SearchBack from d−1 with stride 2 |
| NbpRates.SearchSkipsDays | src/etrade_tax_poland/nbp.py:76-82 | with d−1 unavailable and rates cached for d−2 and d−3, the code returns d−3; one-day steps return d−2 |
| NbpRates.DayByDayFindsNearest | src/etrade_tax_poland/nbp.py:74-83 | with one-day steps, the day found is the nearest day before d that has a rate |
| NbpRates.DateToUsdPlnDayByDay | src/etrade_tax_poland/nbp.py:74-83 | the corrected method's result, cache and log are those of SearchBack with stride 1 |
| NbpRates.EveryDayIsCandidate | src/etrade_tax_poland/nbp.py:74-83 | with one-day steps every earlier day is a candidate |
| NbpRates.CandidatesByTwo | src/etrade_tax_poland/nbp.py:77-82 | with the code's two-day step only days an even distance back from d−1 are candidates |
| NbpRates.CachedShrinks | src/etrade_tax_poland/nbp.py:76-82 | passing a cached day leaves fewer cached days to walk past, so the search terminates |
| IntcPrices.IntcPricesCache.GetRatio | src/etrade_tax_poland/cache/intc.py:61-66 | returns what the cache holds for the day, even "", and ValueError exactly when the day is absent |
| IntcPrices.IntcPricesCache.constructor | src/etrade_tax_poland/cache/intc.py:16-19 | the cache without a file is {"_": ""} and the history starts on 2000-01-01 |
| IntcPrices.IntcPricesCache.FromFile | src/etrade_tax_poland/cache/cache_file.py:15-20 | a cache file replaces the initial contents |
| IntcPrices.DateToIntcPrice | src/etrade_tax_poland/cache/intc.py:72-81 | the day returned lies in [d−9, d], holds the price returned, and no day between it and d is cached; ValueError exactly when none of the ten days is cached |

## Left out

- PDF text extraction, directory listing, CSV and JSON output, and cache-file writes are left out; they are file I/O. The parsers take the extracted text, and the caches start from a given map.
- The network and `sleep` are left out. The rate service is a finite script of answers. A lookup whose script runs out ends as "unanswered", where the source would keep retrying forever.
- `get_ratio` retries only on `ProxyError` and `ConnectTimeout`. `requests.get` can also raise other errors, such as `ReadTimeout`, a plain `ConnectionError` or `SSLError`. Nothing catches those, so in the source they abort the lookup and the run. The scripted answers have none that stands for them. The `print` messages before each retry are left out as well.
- A 200 reply is assumed to carry a well-formed JSON body with a `mid` rate. A malformed body, which would raise in `req.json()["rates"][0]["mid"]`, is not modelled.
- `IntcPricesCache.fill_in` is left out. It is an HTTP client, and the dictionary it fills is a local that never reaches the cache (src/etrade_tax_poland/cache/intc.py:51-55).
- Orchestration and the CLI are left out: `process_stock_docs`, `process_dividend_docs`, `args.py`, `__main__.py`, `etrade.py` and the fill-cache scripts. The older wiring also calls functions that the older common module does not define (`get_usd_pln_ratio`, `get_all_pdf_files`, `get_text_from_file`, `save_txt`).
- IEEE floating point is left out. Money is exact, `round` is exact round-half-to-even, 0.19 is exact, and `:.2f` formatting is not modelled; summary lines carry the number itself.
- `cash_float` is not part of this model. The current parsers take it as a parameter of type `string -> real`, a total function. So the model assumes it never raises, and no parser fails on a malformed money token.
- `float()` and `int()` accept only plain decimal notation here. Exponents, `inf`/`nan`, underscores and surrounding whitespace are not modelled.
- `datetime.fromtimestamp(0)` is taken as 1970-01-01, as on a machine whose local time is not behind UTC. Rate dates are day numbers.
- The 0 that `StockEvent` and `Stock` leave in unused date fields is modelled as `None`.
- The older `Dividend` has no `file` field. The model reuses the current class, whose file stays "".
- `csved`, `csv_header`, `get_csved_object` and `get_table_header` are left out; they are text formatting only.

## Findings

| source | as written | input that shows it | evidently intended | confidence | as-written member | corrected member |
|---|---|---|---|---|---|---|
| src/etrade_tax_poland/cache/nbp.py:57-63 | after a day without a rate the search steps back two days (one at the top of the loop, one in the `except`), so it tries d−1, d−3, d−5, … and never d−2, d−4, … (the same in src/etrade_tax_poland/nbp.py:76-82 and etrade_common.py:88-94) | an event on a Monday after a bank-holiday Friday: Sunday (d−1) has no rate, so the search jumps to Friday (d−3), which has none either, and returns Wednesday, skipping Thursday's rate | the nearest earlier day with a published rate, one day back per missing rate | not executed | NbpRates.SearchSkipsDays | NbpRates.DayByDayFindsNearest |
