/** The server quote route of app/api/stock/route.ts: market hours, the
    Yahoo, then Finnhub, then synthetic fallback chain, and the request
    handler that always answers with a quote. */
module Route {
  import opened Basics
  import opened Num
  import opened Js

  /** The local-time fields of one reading of the clock: `getDay()` (0 is
      Sunday), `getHours()` and `getMinutes()`. */
  datatype Clock = Clock(weekday: int, hours: int, minutes: int)

  predicate ValidClock(c: Clock) {
    0 <= c.weekday < 7 && 0 <= c.hours < 24 && 0 <= c.minutes < 60
  }

  const MarketOpenMinute: int := 9 * 60 + 30
  const MarketCloseMinute: int := 16 * 60

  /** `isMarketOpen`: a weekday, from 9:30 up to but excluding 16:00. */
  function IsMarketOpen(c: Clock): (open: bool)
    ensures c.weekday == 0 || c.weekday == 6 ==> !open
  {
    if c.weekday == 0 || c.weekday == 6 then false
    else
      var currentTime := c.hours * 60 + c.minutes;
      currentTime >= MarketOpenMinute && currentTime < MarketCloseMinute
  }

  /** Market hours stated on the clock face: Monday to Friday, at 9:30 or
      later, and before 16:00. */
  lemma MarketHours(c: Clock)
    requires ValidClock(c)
    ensures IsMarketOpen(c) <==>
              1 <= c.weekday <= 5 && (c.hours > 9 || (c.hours == 9 && c.minutes >= 30)) && c.hours < 16
  {
  }

  lemma MarketHoursBoundaries(weekday: int)
    requires 1 <= weekday <= 5
    ensures !IsMarketOpen(Clock(weekday, 9, 29)) && IsMarketOpen(Clock(weekday, 9, 30))
    ensures IsMarketOpen(Clock(weekday, 15, 59)) && !IsMarketOpen(Clock(weekday, 16, 0))
  {
  }

  /** The quote object every path of the route returns; `timestampMs` is the
      instant its ISO `timestamp` text denotes. */
  datatype RouteQuote = RouteQuote(
    symbol: string,
    price: real,
    change: real,
    changePercent: Num,
    dayHigh: real,
    dayLow: real,
    volume: real,
    previousClose: real,
    open: real,
    marketCap: real,
    pe: real,
    week52High: real,
    week52Low: real,
    avgVolume: real,
    bid: real,
    ask: real,
    bidSize: real,
    askSize: real,
    timestampMs: real,
    isMarketOpen: bool,
    nextUpdate: int)

  const UpdateOpenMs: int := 5000
  const UpdateClosedMs: int := 60000

  /** The market fields as written: `isMarketOpen()` is read once for
      `isMarketOpen` and again for `nextUpdate`. */
  function MarketFieldsAsWritten(first: Clock, second: Clock): (f: (bool, int))
    ensures f.0 == IsMarketOpen(first)
    ensures f.1 == UpdateOpenMs <==> IsMarketOpen(second)
  {
    (IsMarketOpen(first), if IsMarketOpen(second) then UpdateOpenMs else UpdateClosedMs)
  }

  /** When the close passes between the two readings the quote says the
      market is open yet asks to be polled at the closed-market interval. */
  lemma MarketFieldsDisagreeAtClose()
    ensures var f := MarketFieldsAsWritten(Clock(3, 15, 59), Clock(3, 16, 0));
            f.0 && f.1 == UpdateClosedMs
  {
  }

  /** The market fields from one reading: the polling interval is the short one
      exactly when the market is open. */
  function MarketFields(c: Clock): (f: (bool, int))
    ensures f.0 == IsMarketOpen(c)
    ensures f.1 == UpdateOpenMs <==> f.0
    ensures f.1 == UpdateClosedMs <==> !f.0
  {
    var open := IsMarketOpen(c);
    (open, if open then UpdateOpenMs else UpdateClosedMs)
  }

  /** With one reading the as-written fields are the corrected ones. */
  lemma MarketFieldsOneReading(c: Clock)
    ensures MarketFieldsAsWritten(c, c) == MarketFields(c)
  {
  }

  // ---------------------------------------------------------------------------
  // Yahoo Finance

  /** The `chart.result[0].meta` record. Fields read with `||` may be absent. */
  datatype YahooMeta = YahooMeta(
    regularMarketPrice: real,
    previousClose: Option<real>,
    chartPreviousClose: real,
    regularMarketDayHigh: Option<real>,
    regularMarketDayLow: Option<real>,
    regularMarketVolume: Option<real>,
    regularMarketOpen: Option<real>,
    fiftyTwoWeekHigh: Option<real>,
    fiftyTwoWeekLow: Option<real>)

  const RouteMarketCap: real := 790000000.0
  const RouteWeek52High: real := 11.20
  const RouteWeek52Low: real := 3.36
  const RouteAvgVolume: real := 7500000.0

  /** The quote `fetchYahooFinance` builds from a decoded chart; `first` and
      `second` are the two clock readings of its market fields. */
  function FromYahoo(symbol: string, m: YahooMeta, first: Clock, second: Clock, nowMs: real): (q: RouteQuote)
    ensures q.symbol == ToUpper(symbol) && q.price == m.regularMarketPrice
    ensures q.previousClose == OrElse(m.previousClose, m.chartPreviousClose)
    ensures q.change == q.price - q.previousClose
    ensures q.previousClose != 0.0 ==> q.changePercent == Fin(100.0 * q.change / q.previousClose)
    ensures q.dayHigh == OrElse(m.regularMarketDayHigh, q.price)
    ensures q.dayLow == OrElse(m.regularMarketDayLow, q.price)
    ensures q.volume == OrElse(m.regularMarketVolume, 0.0)
    ensures q.open == OrElse(m.regularMarketOpen, q.previousClose)
    ensures q.week52High == OrElse(m.fiftyTwoWeekHigh, RouteWeek52High)
    ensures q.week52Low == OrElse(m.fiftyTwoWeekLow, RouteWeek52Low)
    ensures q.bid == q.price - 0.01 && q.ask == q.price + 0.01
    ensures q.bidSize == 100.0 && q.askSize == 100.0
    ensures q.timestampMs == nowMs
    ensures (q.isMarketOpen, q.nextUpdate) == MarketFieldsAsWritten(first, second)
  {
    var price := m.regularMarketPrice;
    var previousClose := OrElse(m.previousClose, m.chartPreviousClose);
    var change := price - previousClose;
    var market := MarketFieldsAsWritten(first, second);
    RouteQuote(
      symbol := ToUpper(symbol),
      price := price,
      change := change,
      changePercent := Percent(change, previousClose),
      dayHigh := OrElse(m.regularMarketDayHigh, price),
      dayLow := OrElse(m.regularMarketDayLow, price),
      volume := OrElse(m.regularMarketVolume, 0.0),
      previousClose := previousClose,
      open := OrElse(m.regularMarketOpen, previousClose),
      marketCap := RouteMarketCap,
      pe := 0.0,
      week52High := OrElse(m.fiftyTwoWeekHigh, RouteWeek52High),
      week52Low := OrElse(m.fiftyTwoWeekLow, RouteWeek52Low),
      avgVolume := RouteAvgVolume,
      bid := price - 0.01,
      ask := price + 0.01,
      bidSize := 100.0,
      askSize := 100.0,
      timestampMs := nowMs,
      isMarketOpen := market.0,
      nextUpdate := market.1)
  }

  // ---------------------------------------------------------------------------
  // Finnhub

  /** A Finnhub quote body: current price, change, percent change, high, low,
      previous close and open. */
  datatype FinnhubQuote = FinnhubQuote(c: real, d: real, dp: real, h: real, l: real, pc: real, o: real)

  /** The quote built from a Finnhub body: its figures are copied, not
      recomputed. */
  function FromFinnhub(symbol: string, f: FinnhubQuote, first: Clock, second: Clock, nowMs: real): (q: RouteQuote)
    ensures q.symbol == ToUpper(symbol)
    ensures q.price == f.c && q.change == f.d && q.changePercent == Fin(f.dp)
    ensures q.dayHigh == f.h && q.dayLow == f.l && q.previousClose == f.pc && q.open == f.o
    ensures q.volume == 0.0
    ensures q.week52High == RouteWeek52High && q.week52Low == RouteWeek52Low
    ensures q.bid == q.price - 0.01 && q.ask == q.price + 0.01
    ensures q.bidSize == 100.0 && q.askSize == 100.0
    ensures q.timestampMs == nowMs
    ensures (q.isMarketOpen, q.nextUpdate) == MarketFieldsAsWritten(first, second)
  {
    var market := MarketFieldsAsWritten(first, second);
    RouteQuote(
      symbol := ToUpper(symbol),
      price := f.c,
      change := f.d,
      changePercent := Fin(f.dp),
      dayHigh := f.h,
      dayLow := f.l,
      volume := 0.0,
      previousClose := f.pc,
      open := f.o,
      marketCap := RouteMarketCap,
      pe := 0.0,
      week52High := RouteWeek52High,
      week52Low := RouteWeek52Low,
      avgVolume := RouteAvgVolume,
      bid := f.c - 0.01,
      ask := f.c + 0.01,
      bidSize := 100.0,
      askSize := 100.0,
      timestampMs := nowMs,
      isMarketOpen := market.0,
      nextUpdate := market.1)
  }

  // ---------------------------------------------------------------------------
  // Synthetic fallback

  /** The four `Math.random()` draws of `generateFallbackData`, in call order. */
  datatype FallbackDraws = FallbackDraws(variation: real, volume: real, bidSize: real, askSize: real)

  predicate ValidDraws(d: FallbackDraws) {
    IsRandom(d.variation) && IsRandom(d.volume) && IsRandom(d.bidSize) && IsRandom(d.askSize)
  }

  const FallbackBasePrice: real := 5.25
  const FallbackPreviousClose: real := 5.10

  /** The unrounded price of the fallback quote. */
  function FallbackPrice(d: FallbackDraws): (p: real)
    ensures IsRandom(d.variation) ==> 5.10 <= p < 5.40
  {
    FallbackBasePrice + (d.variation - 0.5) * 0.3
  }

  /** `generateFallbackData`: every price rounded to cents with `toFixed(2)`. */
  function GenerateFallbackData(symbol: string, d: FallbackDraws, first: Clock, second: Clock, nowMs: real): (q: RouteQuote)
    ensures q.symbol == ToUpper(symbol)
    ensures q.previousClose == FallbackPreviousClose
    ensures q.timestampMs == nowMs
    ensures (q.isMarketOpen, q.nextUpdate) == MarketFieldsAsWritten(first, second)
  {
    var currentPrice := FallbackPrice(d);
    var change := currentPrice - FallbackPreviousClose;
    var changePercent := Percent(change, FallbackPreviousClose);
    var market := MarketFieldsAsWritten(first, second);
    RouteQuote(
      symbol := ToUpper(symbol),
      price := ToFixed2(currentPrice),
      change := ToFixed2(change),
      changePercent := Fin(ToFixed2(changePercent.v)),
      dayHigh := ToFixed2(currentPrice * 1.02),
      dayLow := ToFixed2(currentPrice * 0.98),
      volume := FloorInt(d.volume * 5000000.0 + 5000000.0) as real,
      previousClose := FallbackPreviousClose,
      open := ToFixed2(FallbackPreviousClose + 0.05),
      marketCap := RouteMarketCap,
      pe := 0.0,
      week52High := RouteWeek52High,
      week52Low := RouteWeek52Low,
      avgVolume := RouteAvgVolume,
      bid := ToFixed2(currentPrice - 0.01),
      ask := ToFixed2(currentPrice + 0.01),
      bidSize := FloorInt(d.bidSize * 500.0 + 100.0) as real,
      askSize := FloorInt(d.askSize * 500.0 + 100.0) as real,
      timestampMs := nowMs,
      isMarketOpen := market.0,
      nextUpdate := market.1)
  }

  /** The fallback quote keeps UWMC's recent range: a cent-rounded price in
      [5.10, 5.40], a day range around it, a one-cent spread each side that
      survives rounding, a change that is exactly price minus previous close,
      and volumes and sizes in the ranges the draws allow. */
  lemma FallbackShape(symbol: string, d: FallbackDraws, first: Clock, second: Clock, nowMs: real)
    requires ValidDraws(d)
    ensures var q := GenerateFallbackData(symbol, d, first, second, nowMs);
      && 5.10 <= q.price <= 5.40 && IsCents(q.price)
      && q.dayLow <= q.price <= q.dayHigh
      && q.ask - q.bid == 0.02
      && q.change == q.price - q.previousClose
      && q.open == 5.15
      && 5000000.0 <= q.volume < 10000000.0
      && 100.0 <= q.bidSize < 600.0 && 100.0 <= q.askSize < 600.0
  {
    var q := GenerateFallbackData(symbol, d, first, second, nowMs);
    var p := FallbackPrice(d);
    ToFixed2Nearest(p);
    ToFixed2Cents(510);
    ToFixed2Cents(540);
    ToFixed2Monotone(5.10, p);
    ToFixed2Monotone(p, 5.40);
    ToFixed2Monotone(p * 0.98, p);
    ToFixed2Monotone(p, p * 1.02);
    ToFixed2Shift(p - 0.01, 2);
    assert p - 0.01 + 2 as real / 100.0 == p + 0.01;
    ToFixed2Shift(p - 5.10, 510);
    assert p - 5.10 + 510 as real / 100.0 == p;
    ToFixed2Cents(515);
    assert FallbackPreviousClose + 0.05 == 515 as real / 100.0;
  }

  // ---------------------------------------------------------------------------
  // The provider chain and the handler

  /** `fetchYahooFinance`: Yahoo when its request and decoding succeed, else
      Finnhub when its response is ok and decodes, else the fallback. Each
      path reads the clock twice for its market fields. */
  function FetchQuote(symbol: string, yahoo: Outcome<YahooMeta>, finnhub: Outcome<FinnhubQuote>,
                      d: FallbackDraws, first: Clock, second: Clock, nowMs: real): (q: RouteQuote)
    ensures yahoo.Ok? ==> q == FromYahoo(symbol, yahoo.record, first, second, nowMs)
    ensures yahoo.Fail? && finnhub.Ok? ==> q == FromFinnhub(symbol, finnhub.record, first, second, nowMs)
    ensures yahoo.Fail? && finnhub.Fail? ==> q == GenerateFallbackData(symbol, d, first, second, nowMs)
  {
    match yahoo
    case Ok(m) => FromYahoo(symbol, m, first, second, nowMs)
    case Fail =>
      match finnhub
      case Ok(f) => FromFinnhub(symbol, f, first, second, nowMs)
      case Fail => GenerateFallbackData(symbol, d, first, second, nowMs)
  }

  /** The default symbol of the handler. */
  const DefaultSymbol: string := "UWMC"

  /** `searchParams.get('symbol') || 'UWMC'`. */
  function SymbolOf(param: Option<string>): (s: string)
    ensures param.Some? && param.value != "" ==> s == param.value
    ensures param.None? || param == Some("") ==> s == DefaultSymbol
  {
    if param.Some? && param.value != "" then param.value else DefaultSymbol
  }

  /** `GET`: every request is answered with the chain's quote for the
      requested symbol. Whatever the providers do, the answer is for the
      upper-cased symbol (UWMC by default), states the constant company
      figures, quotes a one-cent spread each side when the draws are genuine
      `Math.random()` values, takes its open flag from the first clock
      reading and its polling interval from the second. The handler's own
      catch path also answers with `generateFallbackData`, but the chain
      above never throws, so that path is not reached. */
  function Get(param: Option<string>, yahoo: Outcome<YahooMeta>, finnhub: Outcome<FinnhubQuote>,
               d: FallbackDraws, first: Clock, second: Clock, nowMs: real): (q: RouteQuote)
    ensures q == FetchQuote(SymbolOf(param), yahoo, finnhub, d, first, second, nowMs)
    ensures q.symbol == ToUpper(SymbolOf(param))
    ensures param.None? ==> q.symbol == "UWMC"
    ensures q.marketCap == RouteMarketCap && q.pe == 0.0 && q.avgVolume == RouteAvgVolume
    ensures ValidDraws(d) ==> q.ask - q.bid == 0.02
    ensures q.isMarketOpen == IsMarketOpen(first)
    ensures q.nextUpdate == UpdateOpenMs <==> IsMarketOpen(second)
    ensures q.nextUpdate == UpdateClosedMs <==> !IsMarketOpen(second)
  {
    var symbol := SymbolOf(param);
    var q := FetchQuote(symbol, yahoo, finnhub, d, first, second, nowMs);
    assert ToUpper(DefaultSymbol) == DefaultSymbol;
    if yahoo.Fail? && finnhub.Fail? && ValidDraws(d) then
      FallbackShape(symbol, d, first, second, nowMs);
      q
    else
      q
  }

  /** With both readings taken at once, as the code evidently intends, the
      handler polls fast exactly when it reports the market open. */
  lemma GetOneReading(param: Option<string>, yahoo: Outcome<YahooMeta>, finnhub: Outcome<FinnhubQuote>,
                      d: FallbackDraws, c: Clock, nowMs: real)
    ensures var q := Get(param, yahoo, finnhub, d, c, c, nowMs);
            (q.isMarketOpen, q.nextUpdate) == MarketFields(c)
            && (q.nextUpdate == UpdateOpenMs <==> q.isMarketOpen)
  {
    MarketFieldsOneReading(c);
  }

  /** As written, the handler can report the market open while asking to be
      polled at the closed-market interval. */
  lemma GetDisagreesAtClose(param: Option<string>, yahoo: Outcome<YahooMeta>, finnhub: Outcome<FinnhubQuote>,
                            d: FallbackDraws, nowMs: real)
    ensures var q := Get(param, yahoo, finnhub, d, Clock(3, 15, 59), Clock(3, 16, 0), nowMs);
            q.isMarketOpen && q.nextUpdate == UpdateClosedMs
  {
  }

  /** A successful Yahoo answer makes the Finnhub outcome and the draws
      irrelevant. */
  lemma YahooFirst(symbol: string, m: YahooMeta, f1: Outcome<FinnhubQuote>, f2: Outcome<FinnhubQuote>,
                   d1: FallbackDraws, d2: FallbackDraws, first: Clock, second: Clock, nowMs: real)
    ensures FetchQuote(symbol, Ok(m), f1, d1, first, second, nowMs) == FetchQuote(symbol, Ok(m), f2, d2, first, second, nowMs)
  {
  }
}
