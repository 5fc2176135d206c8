# UWMC portfolio tracker: a verified model of its calculations

This project models the calculation core of a small Next.js dashboard, the UWMC portfolio tracker. The dashboard follows one holding of UWM Holdings (ticker UWMC): how many shares there are, what they cost and when they were bought. Modelled here:

- **the quote libraries** (`lib/stockApi.ts`, `lib/stockClient.ts`) and the server route that always returns a quote (`app/api/stock/route.ts`);
- **the portfolio arithmetic**: gain and day gain, the SMA and RSI indicators, RSU vesting with tax withholding, investment projections and return milestones;
- **the simulated price chart** of `components/StockChart.tsx`.

Each operation is one Dafny member with a contract. The lemmas beside it state what the code promises: the order of the provider chains, the bounds of the indicators, that the vesting split is a partition, that the chart walk stays between its clamps, and so on.

Modules, one per source file plus two for JavaScript semantics:

| module | file | models |
|---|---|---|
| `Basics`, `Num` | num.dfy | `Option`/`Outcome`; JavaScript numbers as `Fin(real)`, `NaN` or `Inf(sign)`, so an unguarded division yields `NaN`/`Infinity` instead of needing a precondition |
| `Js` | js.dfy | JavaScript values, truthiness and `\|\|`, `??`-style nullishness, property access, `parseFloat`/`parseInt` on text, `toFixed(2)` (exact on reals), ASCII `toUpperCase`, `String.replace` of the first occurrence |
| `Config` | config.dfy | `lib/config.ts` |
| `StockApi` | stock_api.dfy | `lib/stockApi.ts` |
| `Route` | route.dfy | `app/api/stock/route.ts` |
| `Client` | client.dfy | the five-tier chain of `lib/stockClient.ts` |
| `Vesting` | vesting.dfy | the analytics block of `components/VestingSchedule.tsx` |
| `Analytics` | analytics.dfy | the figures of `components/AdvancedAnalytics.tsx` |
| `Chart` | chart.dfy | `generateChartData` of `components/StockChart.tsx` |

Things outside the program become inputs:

- the clock: an instant in milliseconds, or a `Clock` of weekday, hour and minute;
- every `Math.random()` draw: a real, and `Num.IsRandom` says it lies in [0, 1);
- every network exchange: an `Outcome` (a decoded record or a failure), or the client tier's `Fetch` (threw, or an HTTP status with an optional decoded body).

Loops in the source become methods with loop invariants, each proved equal to a specification function:

- `StockApi.CalculateSma`;
- `StockApi.SplitChanges`, `StockApi.SmoothingLoop` and `StockApi.CalculateRsi`;
- `StockApi.CollectHistorical`;
- `Chart.GenerateChartData`.

Code made of expressions becomes plain functions.

Behaviour of the code worth knowing:

- `nextVesting` is the first unvested event in schedule order, not the earliest by date.
- No division is guarded. A zero cost basis makes the total and annualized percentages `NaN`/`Infinity`; a zero previous value does the same to the day gain percent, and the purchase day itself to the daily gain rate.
- `calculatePortfolioMetrics` fixes `yearsHeld` at 1, so the annualized return equals the total return.
- The components hard-code a purchase date of 2024-07-30, while `lib/config.ts` defaults to 2025-07-30. The route's 52-week high is 11.20, while `lib/config.ts` has 8.54. Each module keeps its own file's constants.
- Failures never surface as errors. The chains end in a fabricated quote, and no setting switches that off.

## Model

| member | source | states |
|---|---|---|
| Num.Neg | lib/stockApi.ts:139 | negation keeps finiteness and negates a finite value |
| Num.Add | lib/stockApi.ts:139 | a JavaScript sum is finite exactly when both operands are, then it is their sum; NaN propagates |
| Num.Sub | lib/stockApi.ts:139 | a JavaScript difference is finite exactly when both operands are, then it is their difference; NaN propagates |
| Num.Mul | lib/stockApi.ts:137-138 | a JavaScript product is finite exactly when both operands are, then it is their product; NaN propagates |
| Num.FloorInt | app/api/stock/route.ts:129 | `Math.floor` of a finite value is the greatest integer at or below it |
| Num.CeilInt | components/VestingSchedule.tsx:31 | `Math.ceil` of a finite value is the least integer at or above it |
| Num.Max | components/StockChart.tsx:37 | `Math.max` of two reals is one of them and at least both |
| Num.Min | components/StockChart.tsx:37 | `Math.min` of two reals is one of them and at most both |
| Num.Div | lib/stockApi.ts:140 | JavaScript division: finite exactly when the dividend is finite and the divisor is infinite or non-zero; `x/0` is NaN for `x = 0` and infinite otherwise; NaN propagates |
| Num.Percent | app/api/stock/route.ts:120 | `change / base * 100` is `100*change/base` for a non-zero base, never finite for a zero base, and NaN there exactly when the change is 0 |
| Num.Ceil | components/VestingSchedule.tsx:31 | `Math.ceil` keeps finiteness and returns the least integer at or above its argument |
| Num.SumAppend | components/VestingSchedule.tsx:52-55 | a `reduce` sum over a concatenation is the sum of the two sums |
| Js.Or | lib/stockClient.ts:15-25 | `a \|\| b` is `a` when `a` is truthy, otherwise `b` |
| Js.OrElse | app/api/stock/route.ts:24-41 | a `meta.field \|\| d` read keeps a present non-zero number and otherwise gives the default |
| Js.Prop | lib/stockClient.ts:12-14 | property access gives the field's value, or `undefined` for a missing key or a non-object |
| Js.ParseFloat | lib/config.ts:4 | `parseFloat` returns a number unchanged and gives NaN for undefined, null, booleans and objects |
| Js.ParseInt | lib/config.ts:3 | `parseInt` gives an integer or NaN, and truncates a finite number toward zero |
| Js.ParseIntWhole | lib/config.ts:3 | `parseInt` of a run of decimal digits, with nothing before it, is the number they denote |
| Js.DecimalDigitsOnly | lib/config.ts:4 | a run of decimal digits reaching the end of the text reads as the number it denotes |
| Js.ParseFloatWhole | lib/config.ts:4 | `parseFloat` of a run of decimal digits, with nothing before it, is the number they denote |
| Js.ParseIntText | lib/config.ts:3 | `parseInt` of text is an integer or NaN |
| Js.Trunc | lib/config.ts:3 | truncation toward zero: within one below a non-negative value and within one above a negative one |
| Js.ParseIntNatText | lib/config.ts:3 | `parseInt` of the decimal text of any natural number gives back that number |
| Js.ParseFloatNatText | lib/config.ts:4 | `parseFloat` of the decimal text of any natural number gives back that number |
| Js.ParseFloatPointed | lib/config.ts:4 | `parseFloat` of `whole.fraction` text with no sign, exponent or leading space is `whole + fraction / 10^digits` |
| Js.ToFixed2Nearest | app/api/stock/route.ts:124-138 | `Number(x.toFixed(2))` is a whole number of cents within half a cent of `x` |
| Js.ToFixed2Monotone | app/api/stock/route.ts:124-138 | rounding to cents preserves order |
| Js.ToFixed2Cents | app/api/stock/route.ts:131 | a value that already is a whole number of cents is unchanged by `toFixed(2)` |
| Js.ToFixed2Shift | app/api/stock/route.ts:137-138 | for non-negative `x`, adding whole cents before rounding equals adding them after |
| Js.ToFixed2NonNegative | components/StockChart.tsx:48 | the rounded value is non-negative exactly when the unrounded one is above -0.005 |
| Js.ToUpper | app/api/stock/route.ts:123 | upper-casing keeps the length, leaves no lower-case ASCII letter, keeps every other character and shifts each lower-case letter to its capital |
| Js.ToUpperIdempotent | app/api/stock/route.ts:123 | upper-casing a symbol twice is upper-casing it once |
| Js.RemoveFirst | lib/stockClient.ts:45 | `replace` of a character leaves text without it unchanged and otherwise removes one character |
| Js.RemoveFirstAt | lib/stockClient.ts:45 | `replace('%', '')` removes exactly the first `%` and keeps the text around it |
| Config.EnvValue | lib/config.ts:3-5 | an unset variable reads as `undefined`, a set one as its text |
| Config.Shares | lib/config.ts:3 | `SHARES` is an integer or NaN |
| Config.SharesDefault | lib/config.ts:3 | with the variable unset or empty, `SHARES` is 9876 |
| Config.SharesOverride | lib/config.ts:3 | with the variable set to decimal text for `n`, `SHARES` is `n` |
| Config.ParseFloatDefaultPrice | lib/config.ts:4 | the default text '4.05' parses to 4.05 |
| Config.PurchasePriceDefault | lib/config.ts:4 | with the variable unset or empty, `PURCHASE_PRICE` is 4.05 |
| Config.PurchasePriceOverride | lib/config.ts:4 | with the variable set to decimal text for `n`, `PURCHASE_PRICE` is `n` |
| Config.PurchaseDate | lib/config.ts:5 | a set, non-empty variable is taken as is; otherwise '2025-07-30' |
| Config.CalculateMarketCap | lib/config.ts:17-20 | dividing the cap by the 1.59 billion shares outstanding gives back the price; a non-negative price gives a non-negative cap, a zero price a zero cap |
| Config.MarketCapMonotone | lib/config.ts:17-20 | a higher price never gives a smaller market cap |
| Config.Week52RangeOrdered | lib/config.ts:13-14 | the configured 52-week low is at most the 52-week high |
| StockApi.QuoteFromMeta | lib/stockApi.ts:60-87 | the quote built from a chart `meta`: upper-cased symbol, price and previous close taken over, change is their difference, percent change is `100*change/previousClose` (never finite at a zero close), each `\|\|`-defaulted field is the meta value when present and non-zero and the default otherwise, timestamp is the market time in milliseconds |
| StockApi.GetMockQuote | lib/stockApi.ts:163-191 | the mock quote: upper-cased symbol, price in [5.00, 5.50) for a random draw, previous close 5.10 with change and percent consistent with it, day low below and day high above the price, bid below and ask above it, a whole volume below 10 million |
| StockApi.GetStockQuote | lib/stockApi.ts:49-93 | a successful chart response gives the mapped quote; any failure gives the mock quote |
| StockApi.QuoteInvariant | lib/stockApi.ts:68 | whichever path answers, the symbol is upper-cased and the change is price minus previous close |
| StockApi.CalculatePortfolioMetrics | lib/stockApi.ts:131-160 | cost, value and gain are the products and difference; the unrealized gain is the total gain; the gain percent is `100*gain/cost` for a non-zero cost; the day gain is `shares*(price-previousClose)` with its percent over the previous value; a zero cost gives no finite total or annualized percent; with `yearsHeld` fixed at 1, the annualized return equals the total gain percent |
| StockApi.RatioMinusOne | lib/stockApi.ts:148 | `value/cost - 1` is `(value - cost)/cost`, which ties the annualized return to the gain |
| StockApi.ConfiguredHoldingMetrics | lib/stockApi.ts:131-160 | at 9876 shares bought at 4.05 and a price of 5.25: cost 39997.80, value 51849, a gain percent between 29.62 and 29.64, equal to the annualized return |
| StockApi.CalculateSma | lib/stockApi.ts:217-227 | one value per complete window; for a period of at least one, value `k` is the mean of `data[k..k+period]`; a period longer than the data gives nothing; a non-positive period gives `0 / period` for each index the loop visits, NaN for period 0 |
| StockApi.Gains | lib/stockApi.ts:234-238 | one gain per consecutive pair of closes |
| StockApi.Losses | lib/stockApi.ts:234-238 | one loss per consecutive pair of closes |
| StockApi.GainsLossesSplit | lib/stockApi.ts:234-238 | each move splits into a non-negative gain and loss, one of them zero, whose difference is the move |
| StockApi.ChangeAt | lib/stockApi.ts:235-237 | entry `i - 1` of the gains and of the losses comes from the move `data[i] - data[i-1]` |
| StockApi.SplitChanges | lib/stockApi.ts:234-238 | the first loop produces exactly the gain and loss sequences of consecutive moves |
| StockApi.RsiLoopStep | lib/stockApi.ts:243-249 | one iteration keeps the pushed values followed by the rest of the series equal to the whole series |
| StockApi.SmoothingLoop | lib/stockApi.ts:243-249 | the loop from the seed averages pushes exactly the series the smoothing recursion defines |
| StockApi.CalculateRsi | lib/stockApi.ts:229-252 | the two loops produce exactly the RSI series: the seeds `slice(0, period)` summed over the period, then Wilder smoothing and `100 - 100/(1+rs)` with `rs = 100` when the average loss is 0 |
| StockApi.CalculateRsiDefault | lib/stockApi.ts:229-252 | with the period argument omitted it is 14: the RSI series for period 14, one value per move after the first 14, each finite and in [0, 100) |
| StockApi.RsiFrom | lib/stockApi.ts:243-249 | the smoothing loop from index `i` pushes one value per remaining index |
| StockApi.RsiFromStep | lib/stockApi.ts:243-249 | one smoothing iteration pushes the RSI of the smoothed averages and continues from them |
| StockApi.RsiOfBounds | lib/stockApi.ts:246-248 | non-negative finite averages give a finite RSI in [0, 100) |
| StockApi.SmoothNonNegative | lib/stockApi.ts:244-245 | smoothing keeps a finite average non-negative |
| StockApi.SumNonNegative | lib/stockApi.ts:240-241 | a sum of non-negative entries is non-negative |
| StockApi.SeedNonNegative | lib/stockApi.ts:240-241 | the seed average of non-negative entries is finite and non-negative |
| StockApi.RsiFromBounds | lib/stockApi.ts:243-249 | every value the smoothing loop pushes from non-negative averages is finite and in [0, 100) |
| StockApi.GainsNonNegative | lib/stockApi.ts:234-238 | all gains and all losses are non-negative |
| StockApi.RsiBounded | lib/stockApi.ts:229-252 | for a period of at least one, the RSI has one value per move beyond the first `period` moves, and each value is finite and in [0, 100) |
| StockApi.RsiFromNaN | lib/stockApi.ts:243-249 | once the average loss is NaN, or the start index is negative, every pushed value is NaN |
| StockApi.RsiNonPositivePeriod | lib/stockApi.ts:240-249 | a zero or negative period gives `\|gains\| - period` values, all NaN |
| StockApi.SliceTo | lib/stockApi.ts:240-241 | `slice(0, end)` is the prefix for an in-range end and the whole array past the end |
| StockApi.Elem | lib/stockApi.ts:244-245 | an index out of range reads as `undefined`, which is NaN in arithmetic |
| StockApi.KeptIndices | lib/stockApi.ts:111-112 | the kept indices are all below the bound |
| StockApi.KeptIndicesExact | lib/stockApi.ts:112 | an index is kept exactly when it is in range and its close is not null |
| StockApi.KeptIndicesIncreasing | lib/stockApi.ts:111-122 | kept indices strictly increase, so rows keep timestamp order |
| StockApi.CollectHistorical | lib/stockApi.ts:105-124 | one row per timestamp whose close is not null, in order, each row made from the five arrays at that index |
| Route.IsMarketOpen | app/api/stock/route.ts:96-111 | Saturday and Sunday are always closed |
| Route.MarketHours | app/api/stock/route.ts:96-111 | on a valid clock face the market is open exactly on weekdays between 9:30 inclusive and 16:00 exclusive |
| Route.MarketHoursBoundaries | app/api/stock/route.ts:106-110 | on a weekday it is closed at 9:29, open at 9:30, open at 15:59 and closed at 16:00 |
| Route.MarketFieldsAsWritten | app/api/stock/route.ts:48-49 | the open flag follows the first clock reading and the update interval follows the second |
| Route.MarketFieldsDisagreeAtClose | app/api/stock/route.ts:48-49 | readings at 15:59 and 16:00 give "open" together with the closed-market interval of 60000 ms |
| Route.MarketFields | app/api/stock/route.ts:48-49 | with one reading, the interval is 5000 ms exactly when open and 60000 ms exactly when closed |
| Route.MarketFieldsOneReading | app/api/stock/route.ts:48-49 | when both readings agree, the as-written fields equal the corrected ones |
| Route.FromYahoo | app/api/stock/route.ts:20-50 | the Yahoo quote: upper-cased symbol, price, previous close falling back to the chart close, change and percent over it, each `\|\|` field its value or its default (price, 0, the previous close, 11.20, 3.36), a spread of one cent each side, sizes 100, the open flag from the first clock reading and the polling interval from the second |
| Route.FromFinnhub | app/api/stock/route.ts:55-86 | the Finnhub quote: price, change, percent, high, low, previous close and open taken over; volume 0; the 52-week defaults; the one-cent spread; sizes 100; the open flag from the first clock reading and the interval from the second |
| Route.FallbackPrice | app/api/stock/route.ts:115-117 | a random draw puts the fallback price in [5.10, 5.40) |
| Route.GenerateFallbackData | app/api/stock/route.ts:113-145 | the fallback quote has the upper-cased symbol, previous close 5.10, the given timestamp, the open flag from the first clock reading and the interval from the second |
| Route.FallbackShape | app/api/stock/route.ts:113-145 | for random draws the fallback price is a whole number of cents in [5.10, 5.40]; the day low and day high bracket it; ask minus bid is exactly 0.02; the change is price minus previous close; the open is 5.15; volume and sizes lie in the ranges the draws allow |
| Route.FetchQuote | app/api/stock/route.ts:4-94 | Yahoo first, Finnhub when Yahoo fails, the fallback when both fail, each given the same two clock readings |
| Route.SymbolOf | app/api/stock/route.ts:149 | an absent or empty `symbol` parameter means 'UWMC'; any other value is kept |
| Route.Get | app/api/stock/route.ts:147-177 | the handler answers with the chain's quote for the requested symbol: upper-cased, UWMC when the parameter is absent; market cap 790000000, P/E 0, average volume 7500000; ask minus bid of 0.02 for genuine random draws; the open flag from the first clock reading; the 5000 ms interval exactly when the second reading is open, 60000 ms exactly when it is closed |
| Route.GetOneReading | app/api/stock/route.ts:48-49 | when both readings are the same instant, the answer's market fields are the single-reading ones, so it polls fast exactly when it reports the market open |
| Route.GetDisagreesAtClose | app/api/stock/route.ts:48-49 | readings at 15:59 and 16:00 make the handler answer open with the 60000 ms interval, whichever provider answers |
| Route.YahooFirst | app/api/stock/route.ts:20-50 | once Yahoo answers, neither the Finnhub outcome nor the random draws change the result |
| Client.FromTwelveData | lib/stockClient.ts:6-30 | the tier answers exactly when the body is not null and its `price` is truthy; the answer says 'TwelveData'; the price is parsed; each other figure is the parsed field when that is truthy, and otherwise the parsed price (high, low, previous close, open) or 0 (change, percent, volume) |
| Client.TwelveDataDefaults | lib/stockClient.ts:15-25 | a body with only a price repeats the price as high, low, previous close and open, and gives zero change, percent and volume |
| Client.StripPercent | lib/stockClient.ts:45 | on text, `replace('%', '')` removes the first `%`; on null or undefined, the optional chain yields undefined; on anything else it throws |
| Client.FromAlphaVantage | lib/stockClient.ts:32-57 | the tier answers exactly when the body has a `Global Quote` whose `05. price` is truthy and whose percent field can be stripped; the answer says 'AlphaVantage'; its figures are those of the quote, price and stripped percent |
| Client.AlphaVantageFigures | lib/stockClient.ts:42-52 | the price is parsed; the change percent is the one given; each other figure is the parsed `0N.` field when that is truthy, and otherwise the parsed price (high, low, previous close, open) or 0 (change, volume) |
| Client.AlphaVantagePercent | lib/stockClient.ts:45 | a percent text loses its first `%` before it becomes the change percent |
| Client.AlphaVantageNumericPercent | lib/stockClient.ts:45 | a numeric percent field makes `replace` throw, and the tier falls through |
| Client.FromIex | lib/stockClient.ts:59-83 | the tier answers exactly when the body is not null and `latestPrice` is truthy; the answer says 'IEX' and carries that price unparsed; each other figure is the field when truthy, and otherwise the price (high, low, previous close, open) or 0 (change, percent, volume) |
| Client.FromServer | lib/stockClient.ts:85-97 | any decoded body is relayed: its keys plus `source`, every other field unchanged |
| Client.Attempt | lib/stockClient.ts:6-97 | a tier answers only after an ok response with a decoded body, and then decodes it with that tier's rule |
| Client.FetchRealTimeStock | lib/stockClient.ts:6-111 | the first tier whose attempt answers gives the result, in the order Twelve Data, Alpha Vantage, IEX, server; when none answers, the mock |
| Client.SourceNamesTier | lib/stockClient.ts:6-111 | every result names the tier that produced it, or 'Mock' |
| Client.FailedRequestFallsThrough | lib/stockClient.ts:7-30 | a thrown request, a non-ok status or an undecodable body makes any tier fall through |
| Client.LaterTiersIgnored | lib/stockClient.ts:14-26 | once Twelve Data answers, the later requests do not matter |
| Client.ServerDecodesMeansNoMock | lib/stockClient.ts:85-97 | an ok, decodable server response means the mock is never reached |
| Client.MockQuoteConsistent | lib/stockClient.ts:99-111 | the mock's change is its price minus its previous close, and its percent is that change over the close, to two decimals |
| Vesting.DifferenceInDaysBounds | components/VestingSchedule.tsx:26 | the whole days between two instants are truncated toward zero: less than a day short of the elapsed time in either direction |
| Vesting.AnalyzeEvent | components/VestingSchedule.tsx:24-46 | the event record: the event and the combined tax rate; gross is shares times price; withholding is gross times rate and net is gross less withholding; withheld and net shares |
| Vesting.VestedWhen | components/VestingSchedule.tsx:25-27 | the vest instant is past or on today's date exactly when the vest day is today or earlier |
| Vesting.EventVestedIffDay | components/VestingSchedule.tsx:25-27 | an event is vested exactly when its day is today or earlier |
| Vesting.DaysUntilVestSign | components/VestingSchedule.tsx:25-27 | a vested event has no days left (zero or negative); an unvested one has zero or more, and zero days left means it vests today or tomorrow |
| Vesting.SharesWithheldRoundsUp | components/VestingSchedule.tsx:31-32 | at a positive price the withheld shares are the ceiling of shares times rate; with a rate in [0, 1] the net shares are a non-negative whole number; at price 0 the withholding is NaN |
| Vesting.WithheldIsCeiling | components/VestingSchedule.tsx:29-31 | the price cancels out of `ceil(gross*rate/price)` |
| Vesting.WithheldExample | components/VestingSchedule.tsx:22-31 | 2500 shares at a combined rate of 38.65% have 967 shares withheld, at any positive price |
| Vesting.VestedOf | components/VestingSchedule.tsx:48 | the vested filter keeps only vested events |
| Vesting.UnvestedOf | components/VestingSchedule.tsx:49 | the unvested filter keeps only unvested events |
| Vesting.First | components/VestingSchedule.tsx:50 | `unvested[0]` is the first element, or undefined for an empty list |
| Vesting.Analyze | components/VestingSchedule.tsx:20-71 | one analysis per schedule event, in order, with the combined tax rate |
| Vesting.FiltersDistribute | components/VestingSchedule.tsx:48-49 | both filters distribute over concatenation |
| Vesting.VestedDistributes | components/VestingSchedule.tsx:48 | the vested filter over a concatenation is the concatenation of the filtered parts |
| Vesting.UnvestedDistributes | components/VestingSchedule.tsx:49 | the unvested filter over a concatenation is the concatenation of the filtered parts |
| Vesting.FiltersMultiset | components/VestingSchedule.tsx:48-49 | the two lists together hold the events' multiset |
| Vesting.VestedMembers | components/VestingSchedule.tsx:48 | an event is in the vested list exactly when it is a vested event of the list |
| Vesting.UnvestedMembers | components/VestingSchedule.tsx:49 | an event is in the unvested list exactly when it is an unvested event of the list |
| Vesting.FiltersPartition | components/VestingSchedule.tsx:48-49 | the vested and unvested lists together are a permutation of the events; an event is in a list exactly when it is an event of that kind |
| Vesting.SharesSplit | components/VestingSchedule.tsx:52-53 | vested plus unvested shares is all the shares |
| Vesting.SharesAppend | components/VestingSchedule.tsx:52-53 | the share sum over a concatenation is the sum of the two sums |
| Vesting.FirstUnvested | components/VestingSchedule.tsx:50 | there is a next vesting exactly when some event is unvested, and then it is the first unvested one in schedule order |
| Vesting.TotalsSplit | components/VestingSchedule.tsx:54-56 | total taxes (gross less net) equal the summed withholdings, which are the gross total times the rate |
| Vesting.AnalyzeTotals | components/VestingSchedule.tsx:52-70 | the totals: total shares is the schedule's shares, vested shares is the vested sum, gross and net are the event sums, total taxes are the summed withholdings |
| Vesting.EventsVestedIffDay | components/VestingSchedule.tsx:24-48 | each analysed event is vested exactly when its schedule day is today or earlier |
| Vesting.AnalyzePartition | components/VestingSchedule.tsx:48-49 | the vested and unvested lists partition the events, split by vest day against today |
| Vesting.NextVestingInScheduleOrder | components/VestingSchedule.tsx:50 | there is no next vesting exactly when every event's day has come; otherwise it is the first unvested event in schedule order |
| Analytics.DaysSincePurchaseBounds | components/AdvancedAnalytics.tsx:18 | the day count is the whole days since midnight UTC of the purchase date, rounded down |
| Analytics.SummaryAt | components/AdvancedAnalytics.tsx:11-24 | investment is shares times purchase price, value is shares times price, gain is their difference, percent is `100*gain/investment`, the daily rate is gain over days; on the purchase day the rate is not finite, and NaN exactly when the price equals the purchase price |
| Analytics.GainSign | components/AdvancedAnalytics.tsx:14 | the gain is shares times the price's distance from 4.05, with that distance's sign |
| Analytics.SummaryNow | components/AdvancedAnalytics.tsx:11-19 | with the price fixed at 5.25, the value is 51849 and the gain 11851.20 at every instant |
| Analytics.ProjectionsLinear | components/AdvancedAnalytics.tsx:22-24 | each projection is the value plus the daily rate times 30, 90 or 365; after a positive day count with no loss they grow with the horizon; on the purchase day none is finite |
| Analytics.CurrentPriceGain | components/AdvancedAnalytics.tsx:11-15 | the price of 5.25 is a gain of 11851.20, between 29.62% and 29.63% |
| Analytics.MilestoneAt | components/AdvancedAnalytics.tsx:113-116 | a milestone's target value and price are the investment and the purchase price scaled by `1 + m/100`; it is achieved exactly when the value reaches the target; otherwise the amount needed is positive |
| Analytics.Milestones | components/AdvancedAnalytics.tsx:113 | one milestone for each of 10, 25, 50 and 100%, in that order |
| Analytics.AchievedIffPrice | components/AdvancedAnalytics.tsx:114-116 | a milestone is achieved exactly when the price reaches the price it names |
| Analytics.AchievedPrefix | components/AdvancedAnalytics.tsx:113-116 | reaching a milestone means reaching every smaller one |
| Analytics.MilestonesAtCurrentPrice | components/AdvancedAnalytics.tsx:113-116 | at 5.25 the +10% and +25% milestones are met and the +50% and +100% ones are not |
| Chart.MultiplierRange | components/StockChart.tsx:32-36 | a random draw moves the price by a factor in [0.991, 1.011) |
| Chart.Clamp | components/StockChart.tsx:37 | the clamp keeps a price in [3.5, 6.5] unchanged and sends one outside to the nearer bound |
| Chart.Walk | components/StockChart.tsx:27-37 | one price per draw, each in [3.5, 6.5] |
| Chart.WalkPrefix | components/StockChart.tsx:27-37 | the walk over the first `k` draws is the first `k` prices of the walk |
| Chart.WalkSteps | components/StockChart.tsx:36-37 | each price is one clamped step from the previous one, the first from the purchase price |
| Chart.WalkAppend | components/StockChart.tsx:27-37 | one more draw adds one step from the last price |
| Chart.Points | components/StockChart.tsx:39-50 | one point per price, dated consecutively from the purchase day |
| Chart.PointsAppend | components/StockChart.tsx:43-50 | one more price adds its point at the next day |
| Chart.PointCount | components/StockChart.tsx:22-27 | the inclusive loop makes days-since-purchase plus one points, none before the purchase date |
| Chart.RangeLength | components/StockChart.tsx:55-61 | '1W', '1M' and '3M' keep 7, 30 and 90 points; any other range keeps all of them |
| Chart.FilterByRange | components/StockChart.tsx:53-61 | the filtered data is a suffix of the data, as long as the range or the data, whichever is shorter |
| Chart.LatestSameForEveryRange | components/StockChart.tsx:53-61 | every range keeps the latest point |
| Chart.GenerateChartData | components/StockChart.tsx:18-64 | the loop produces the selected range of the clamped walk's points, one per day since purchase |
| Chart.SeriesBounded | components/StockChart.tsx:36-46 | every charted price is a whole number of cents in [3.5, 6.5] |
| Chart.PointPriceBounded | components/StockChart.tsx:46 | rounding a price in [3.5, 6.5] to cents keeps it in range |
| Chart.PointGain | components/StockChart.tsx:39-48 | a point's value is price times shares and its gain is value less cost; the unrounded gain is non-negative exactly when the price has reached 4.05; the rounded gain is non-negative exactly when the unrounded one is above -0.005 |

## Left out

- Network requests, `console` logging, React state, effects, polling, toggles, formatting and rendering are outside the model. Responses enter as decoded records (`Outcome`) or as `Fetch` values. Random draws and the clock enter as parameters.
- The CORS and cache headers that `GET` attaches are not modelled; the model keeps only the body.
- `GET`'s `catch` branch is not modelled. `fetchYahooFinance` catches every failure itself, so that branch cannot run.
- Finnhub quotes are modelled as records of numbers. A field that is missing, or that is not a number, is not modelled.
- Route provider records hold real numbers. A field read without a `||` default that is absent would be NaN in JavaScript; that case is not modelled.
- Arrays and strings that reach the server tier's object spread are modelled as contributing no keys. JavaScript spreads their indices.
- Floating point is modelled as exact real arithmetic with NaN and infinities. Rounding error, `-0`, the finite range of doubles, and `toFixed`'s binary representation are not modelled.
- `Js.ParseFloat`: an array argument gives NaN. JavaScript parses the array's text, the elements' texts joined by commas, so `parseFloat([5])` is 5. Converting arbitrary values to text is not modelled.
- `Js.ParseInt`: a number argument is truncated directly. JavaScript first converts it to text, which is in exponent form below 1e-6 and from 1e21 on, so `parseInt(5e-7)` is 5 where the model gives 0. An array argument gives NaN, where JavaScript parses its joined text.
- `parseFloat` and `parseInt` are modelled on decimal text (digits, sign, point, exponent, leading white space). `parseInt` also reads a `0x` prefix as hexadecimal, and `parseFloat` reads a signed `Infinity`.
- `toUpperCase` is modelled for ASCII only.
- A date is a day number, and an instant is milliseconds since 1970 in UTC. Local time zones, date-text parsing, `format` labels and `toISOString` are not modelled. So `Vesting.VestingEvent` takes its vest date already parsed, and `Chart.ChartPoint` has no date texts.
- `RSU_VESTING_SCHEDULE` and `TAX_CONFIG` are imported by `components/VestingSchedule.tsx`, but `lib/config.ts` does not define them. The model takes the schedule and the three tax rates as inputs.
- `getMockHistoricalData`, `calculateVolatility` and the other view components are outside the core and not modelled.
- The `isMarketOpen` time zone is the server's local clock. The model takes the weekday, hour and minute as read; the Eastern time the comment mentions is not enforced by the code.
- `Chart.PointGain`: the link between the rounded gain and its sign is stated against -0.005, not against the purchase price. Rounding half a cent toward zero makes prices a hair below 4.05 show a gain of 0.00.
- `Vesting.AnalyzeTotals`: it does not restate that total taxes are gross times the rate. `Vesting.TotalsSplit` states that about any list of events with one rate.

## Findings

| source | as written | input that shows it | evidently intended | confidence | as-written member | corrected member |
|---|---|---|---|---|---|---|
| app/api/stock/route.ts:48-49 | `isMarketOpen` and `nextUpdate` each call `isMarketOpen()`, reading the clock twice (again at 83-84 and 142-143) | the first reading at 15:59:59.999 on a weekday and the second at 16:00 give `isMarketOpen: true` together with `nextUpdate: 60000` | both fields come from one reading, so the 5000 ms interval goes with an open market | not executed | Route.MarketFieldsAsWritten, Route.MarketFieldsDisagreeAtClose, Route.GetDisagreesAtClose | Route.MarketFields, Route.GetOneReading |
