/** Quote mapping, portfolio metrics and technical indicators of
    lib/stockApi.ts. */
module StockApi {
  import opened Basics
  import opened Num
  import opened Js

  /** The quote record `getStockQuote` returns; `timestampMs` is the instant
      its `timestamp` Date holds. */
  datatype StockQuote = StockQuote(
    symbol: string,
    price: real,
    change: real,
    changePercent: Num,
    dayHigh: real,
    dayLow: real,
    volume: real,
    previousClose: real,
    open: real,
    marketCap: real,
    pe: real,
    week52High: real,
    week52Low: real,
    avgVolume: real,
    bid: real,
    ask: real,
    bidSize: real,
    askSize: real,
    timestampMs: real)

  /** The `meta` record of a chart response. The fields the source reads with
      `||` may be absent; the others are taken to be numbers. */
  datatype ChartMeta = ChartMeta(
    regularMarketPrice: real,
    previousClose: real,
    regularMarketDayHigh: real,
    regularMarketDayLow: real,
    regularMarketVolume: real,
    regularMarketOpen: real,
    marketCap: Option<real>,
    trailingPE: Option<real>,
    fiftyTwoWeekHigh: real,
    fiftyTwoWeekLow: real,
    averageDailyVolume3Month: Option<real>,
    averageDailyVolume10Day: real,
    bid: Option<real>,
    ask: Option<real>,
    bidSize: Option<real>,
    askSize: Option<real>,
    regularMarketTime: real)

  /** A number field that `||` keeps: present and non-zero. */
  predicate Given(a: Option<real>) {
    a.Some? && a.value != 0.0
  }

  /** The quote `getStockQuote` builds from a chart `meta` record. */
  function QuoteFromMeta(symbol: string, m: ChartMeta): (q: StockQuote)
    ensures q.symbol == ToUpper(symbol)
    ensures q.price == m.regularMarketPrice && q.previousClose == m.previousClose
    ensures q.change == q.price - q.previousClose
    ensures q.previousClose != 0.0 ==> q.changePercent == Fin(100.0 * q.change / q.previousClose)
    ensures q.previousClose == 0.0 ==> !q.changePercent.Fin?
    ensures Given(m.bid) ==> q.bid == m.bid.value
    ensures !Given(m.bid) ==> q.bid == q.price
    ensures Given(m.ask) ==> q.ask == m.ask.value
    ensures !Given(m.ask) ==> q.ask == q.price
    ensures q.bidSize == (if Given(m.bidSize) then m.bidSize.value else 0.0)
    ensures q.askSize == (if Given(m.askSize) then m.askSize.value else 0.0)
    ensures q.marketCap == (if Given(m.marketCap) then m.marketCap.value else 0.0)
    ensures q.pe == (if Given(m.trailingPE) then m.trailingPE.value else 0.0)
    ensures q.avgVolume == (if Given(m.averageDailyVolume3Month) then m.averageDailyVolume3Month.value
                            else m.averageDailyVolume10Day)
    ensures q.timestampMs == 1000.0 * m.regularMarketTime
  {
    var price := m.regularMarketPrice;
    var change := price - m.previousClose;
    StockQuote(
      symbol := ToUpper(symbol),
      price := price,
      change := change,
      changePercent := Percent(change, m.previousClose),
      dayHigh := m.regularMarketDayHigh,
      dayLow := m.regularMarketDayLow,
      volume := m.regularMarketVolume,
      previousClose := m.previousClose,
      open := m.regularMarketOpen,
      marketCap := OrElse(m.marketCap, 0.0),
      pe := OrElse(m.trailingPE, 0.0),
      week52High := m.fiftyTwoWeekHigh,
      week52Low := m.fiftyTwoWeekLow,
      avgVolume := OrElse(m.averageDailyVolume3Month, m.averageDailyVolume10Day),
      bid := OrElse(m.bid, price),
      ask := OrElse(m.ask, price),
      bidSize := OrElse(m.bidSize, 0.0),
      askSize := OrElse(m.askSize, 0.0),
      timestampMs := m.regularMarketTime * 1000.0)
  }

  /** The two `Math.random()` draws of `getMockQuote`, in call order. */
  datatype MockDraws = MockDraws(variation: real, volume: real)

  const MockBasePrice: real := 5.25
  const MockPreviousClose: real := 5.10

  /** The development quote `getMockQuote` makes up at instant `nowMs`. */
  function GetMockQuote(symbol: string, d: MockDraws, nowMs: real): (q: StockQuote)
    ensures q.symbol == ToUpper(symbol)
    ensures IsRandom(d.variation) ==> 5.0 <= q.price < 5.5
    ensures q.previousClose == MockPreviousClose
    ensures q.change == q.price - q.previousClose
    ensures q.changePercent == Fin(100.0 * (q.price - 5.10) / 5.10)
    ensures q.dayLow < q.price < q.dayHigh
    ensures q.bid < q.price < q.ask
    ensures IsRandom(d.volume) ==> 0.0 <= q.volume < 10000000.0
    ensures q.volume == q.volume.Floor as real
    ensures q.timestampMs == nowMs
  {
    var price := MockBasePrice + (d.variation - 0.5) * 0.5;
    var change := price - MockPreviousClose;
    StockQuote(
      symbol := ToUpper(symbol),
      price := price,
      change := change,
      changePercent := Percent(change, MockPreviousClose),
      dayHigh := price + 0.15,
      dayLow := price - 0.20,
      volume := FloorInt(d.volume * 10000000.0) as real,
      previousClose := MockPreviousClose,
      open := MockPreviousClose + 0.05,
      marketCap := 790000000.0,
      pe := 0.0,
      week52High := 11.20,
      week52Low := 3.36,
      avgVolume := 7500000.0,
      bid := price - 0.01,
      ask := price + 0.01,
      bidSize := 100.0,
      askSize := 100.0,
      timestampMs := nowMs)
  }

  /** `getStockQuote`: the chart endpoint's `meta` when the request and its
      decoding succeed, the mock quote on any failure. */
  function GetStockQuote(symbol: string, chart: Outcome<ChartMeta>, d: MockDraws, nowMs: real): (q: StockQuote)
    ensures chart.Ok? ==> q == QuoteFromMeta(symbol, chart.record)
    ensures chart.Fail? ==> q == GetMockQuote(symbol, d, nowMs)
  {
    match chart
    case Ok(m) => QuoteFromMeta(symbol, m)
    case Fail => GetMockQuote(symbol, d, nowMs)
  }

  /** Whichever path produced it, the quote carries the upper-cased symbol
      and a change that is price minus previous close. */
  lemma QuoteInvariant(symbol: string, chart: Outcome<ChartMeta>, d: MockDraws, nowMs: real)
    ensures GetStockQuote(symbol, chart, d, nowMs).symbol == ToUpper(symbol)
    ensures var q := GetStockQuote(symbol, chart, d, nowMs); q.change == q.price - q.previousClose
  {
  }

  // ---------------------------------------------------------------------------
  // Portfolio metrics

  datatype PortfolioMetrics = PortfolioMetrics(
    totalValue: real,
    totalCost: real,
    totalGain: real,
    totalGainPercent: Num,
    dayGain: real,
    dayGainPercent: Num,
    unrealizedGain: real,
    annualizedReturn: Num)

  /** The holding period `calculatePortfolioMetrics` assumes. */
  const YearsHeld: int := 1

  /** `calculatePortfolioMetrics`. `Math.pow(x, 1 / yearsHeld)` with
      `yearsHeld = 1` is `Math.pow(x, 1)`, which is `x` for every number. */
  function CalculatePortfolioMetrics(shares: real, costBasis: real, currentPrice: real, previousClose: real)
    : (m: PortfolioMetrics)
    ensures m.totalCost == shares * costBasis && m.totalValue == shares * currentPrice
    ensures m.totalGain == shares * currentPrice - shares * costBasis
    ensures m.unrealizedGain == m.totalGain
    ensures m.totalCost != 0.0 ==> m.totalGainPercent == Fin(100.0 * m.totalGain / m.totalCost)
    ensures m.dayGain == shares * (currentPrice - previousClose)
    ensures shares * previousClose != 0.0 ==>
              m.dayGainPercent == Fin(100.0 * m.dayGain / (shares * previousClose))
    ensures m.totalCost == 0.0 ==> !m.totalGainPercent.Fin? && !m.annualizedReturn.Fin?
    ensures m.annualizedReturn == m.totalGainPercent
  {
    var totalCost := shares * costBasis;
    var totalValue := shares * currentPrice;
    var totalGain := totalValue - totalCost;
    var previousValue := shares * previousClose;
    var dayGain := totalValue - previousValue;
    var ratio := Div(Fin(totalValue), Fin(totalCost));
    var annualized := Sub(ratio, Fin(1.0));
    RatioMinusOne(totalValue, totalCost);
    PortfolioMetrics(
      totalValue := totalValue,
      totalCost := totalCost,
      totalGain := totalGain,
      totalGainPercent := Percent(totalGain, totalCost),
      dayGain := dayGain,
      dayGainPercent := Percent(dayGain, previousValue),
      unrealizedGain := totalGain,
      annualizedReturn := Mul(annualized, Fin(100.0)))
  }

  lemma RatioMinusOne(v: real, c: real)
    ensures c != 0.0 ==> v / c - 1.0 == (v - c) / c
  {
    if c != 0.0 {
      assert c / c == 1.0;
      assert (v - c) / c == v / c - c / c;
    }
  }

  /** The holding in the configuration at price 5.25: cost 39997.80, value
      51849.00 and a gain of about 29.63%, which is also the annualized
      return. */
  lemma ConfiguredHoldingMetrics()
    ensures var m := CalculatePortfolioMetrics(9876.0, 4.05, 5.25, 5.10);
      && m.totalCost == 39997.8 && m.totalValue == 51849.0
      && m.totalGainPercent.Fin? && 29.62 < m.totalGainPercent.v < 29.64
      && m.annualizedReturn == m.totalGainPercent
  {
  }

  // ---------------------------------------------------------------------------
  // Simple moving average

  /** The arithmetic mean of a non-empty window. */
  function Mean(w: seq<real>): real
    requires |w| > 0
  {
    Sum(w) / |w| as real
  }

  /** How many values `calculateSMA` pushes: one per `i` from `period - 1` up
      to the last index. */
  function SmaLength(n: int, period: int): nat {
    if n - period + 1 > 0 then n - period + 1 else 0
  }

  /** `calculateSMA`. For a period of at least one, value `k` is the mean of
      the window `data[k .. k + period - 1]`; a period larger than the data
      gives none. A period of zero or less runs no inner iterations, so every
      value is `0 / period` (NaN for zero). */
  method CalculateSma(data: seq<real>, period: int) returns (sma: seq<Num>)
    ensures |sma| == SmaLength(|data|, period)
    ensures period > |data| ==> sma == []
    ensures period >= 1 ==> forall k | 0 <= k < |sma| ::
              sma[k] == Fin(Mean(data[k..k + period]))
    ensures period <= 0 ==> forall k | 0 <= k < |sma| :: sma[k] == Div(Fin(0.0), Fin(period as real))
  {
    sma := [];
    var i := period - 1;
    while i < |data|
      invariant period - 1 <= i
      invariant i <= |data| || i == period - 1
      invariant |sma| == i - period + 1
      invariant period >= 1 ==> forall k | 0 <= k < |sma| ::
                  sma[k] == Fin(Mean(data[k..k + period]))
      invariant period <= 0 ==> forall k | 0 <= k < |sma| :: sma[k] == Div(Fin(0.0), Fin(period as real))
      decreases |data| - i
    {
      var sum := 0.0;
      var j := 0;
      while j < period
        invariant 0 <= j <= if period > 0 then period else 0
        invariant j == 0 ==> sum == 0.0
        invariant j > 0 ==> sum == Sum(data[i - j + 1..i + 1])
      {
        assert data[i - j..i + 1] == [data[i - j]] + data[i - j + 1..i + 1];
        sum := sum + data[i - j];
        j := j + 1;
      }
      assert period >= 1 ==> sum == Sum(data[i - period + 1..i + 1]);
      sma := sma + [Div(Fin(sum), Fin(period as real))];
      i := i + 1;
    }
  }

  // ---------------------------------------------------------------------------
  // Relative strength index

  function Gain(change: real): real {
    if change > 0.0 then change else 0.0
  }

  function Loss(change: real): real {
    if change < 0.0 then -change else 0.0
  }

  /** The `gains` array of `calculateRSI`: one entry per consecutive pair. */
  function Gains(data: seq<real>): (g: seq<real>)
    ensures |g| == if |data| == 0 then 0 else |data| - 1
  {
    if |data| == 0 then [] else seq(|data| - 1, i requires 0 <= i < |data| - 1 => Gain(data[i + 1] - data[i]))
  }

  /** The `losses` array of `calculateRSI`. */
  function Losses(data: seq<real>): (l: seq<real>)
    ensures |l| == if |data| == 0 then 0 else |data| - 1
  {
    if |data| == 0 then [] else seq(|data| - 1, i requires 0 <= i < |data| - 1 => Loss(data[i + 1] - data[i]))
  }

  /** Each step's move splits into a gain and a loss that are non-negative,
      never both non-zero, and differ by the move itself. */
  lemma GainsLossesSplit(data: seq<real>, i: nat)
    requires i + 1 < |data|
    ensures Gains(data)[i] >= 0.0 && Losses(data)[i] >= 0.0
    ensures Gains(data)[i] - Losses(data)[i] == data[i + 1] - data[i]
    ensures Gains(data)[i] == 0.0 || Losses(data)[i] == 0.0
  {
  }

  /** `s.slice(0, end)`: a negative end counts from the back. */
  function SliceTo(s: seq<real>, end: int): (r: seq<real>)
    ensures 0 <= end <= |s| ==> r == s[..end]
    ensures end > |s| ==> r == s
  {
    if end >= 0 then s[..if end <= |s| then end else |s|]
    else s[..if |s| + end >= 0 then |s| + end else 0]
  }

  /** `a[i]` of a number array used in arithmetic: `undefined` out of range
      becomes NaN. */
  function Elem(s: seq<real>, i: int): (r: Num)
    ensures 0 <= i < |s| ==> r == Fin(s[i])
    ensures !(0 <= i < |s|) ==> r.NaN?
  {
    if 0 <= i < |s| then Fin(s[i]) else NaN
  }

  /** The first average: the sum of the first `period` entries over `period`. */
  function Seed(s: seq<real>, period: int): Num {
    Div(Fin(Sum(SliceTo(s, period))), Fin(period as real))
  }

  /** One smoothing step `(avg * (period - 1) + x) / period`. */
  function Smooth(avg: Num, x: Num, period: int): Num {
    Div(Add(Mul(avg, Fin((period - 1) as real)), x), Fin(period as real))
  }

  /** `100 - 100 / (1 + rs)`, where `rs` is 100 when the average loss is 0. */
  function RsiOf(avgGain: Num, avgLoss: Num): Num {
    var rs := if avgLoss == Fin(0.0) then Fin(100.0) else Div(avgGain, avgLoss);
    Sub(Fin(100.0), Div(Fin(100.0), Add(Fin(1.0), rs)))
  }

  /** The values the second loop of `calculateRSI` pushes from index `i` on,
      given the running averages before index `i`. */
  function RsiFrom(gains: seq<real>, losses: seq<real>, period: int, i: int, avgGain: Num, avgLoss: Num)
    : (r: seq<Num>)
    ensures |r| == if i < |gains| then |gains| - i else 0
    decreases |gains| - i
  {
    if i >= |gains| then []
    else
      var g := Smooth(avgGain, Elem(gains, i), period);
      var l := Smooth(avgLoss, Elem(losses, i), period);
      [RsiOf(g, l)] + RsiFrom(gains, losses, period, i + 1, g, l)
  }

  lemma RsiFromStep(gains: seq<real>, losses: seq<real>, period: int, i: int, avgGain: Num, avgLoss: Num)
    requires i < |gains|
    ensures var g := Smooth(avgGain, Elem(gains, i), period);
            var l := Smooth(avgLoss, Elem(losses, i), period);
            RsiFrom(gains, losses, period, i, avgGain, avgLoss)
            == [RsiOf(g, l)] + RsiFrom(gains, losses, period, i + 1, g, l)
  {
  }

  /** What `calculateRSI(data, period)` returns. */
  function Rsi(data: seq<real>, period: int): seq<Num> {
    var gains := Gains(data);
    var losses := Losses(data);
    RsiFrom(gains, losses, period, period, Seed(gains, period), Seed(losses, period))
  }

  /** Entry `i - 1` of both arrays comes from the move into `data[i]`. */
  lemma ChangeAt(data: seq<real>, i: nat)
    requires 1 <= i < |data|
    ensures Gains(data)[i - 1] == Gain(data[i] - data[i - 1])
    ensures Losses(data)[i - 1] == Loss(data[i] - data[i - 1])
  {
  }

  lemma PrefixStep<T>(s: seq<T>, i: nat)
    requires 1 <= i <= |s|
    ensures s[..i] == s[..i - 1] + [s[i - 1]]
  {
  }

  /** The first loop of `calculateRSI`: each consecutive move split into a
      gain and a loss. */
  method SplitChanges(data: seq<real>) returns (gains: seq<real>, losses: seq<real>)
    ensures gains == Gains(data) && losses == Losses(data)
  {
    gains := [];
    losses := [];
    var i := 1;
    while i < |data|
      invariant 0 <= i - 1 <= |Gains(data)|
      invariant gains == Gains(data)[..i - 1] && losses == Losses(data)[..i - 1]
    {
      var change := data[i] - data[i - 1];
      ChangeAt(data, i);
      PrefixStep(Gains(data), i);
      PrefixStep(Losses(data), i);
      gains := gains + [Gain(change)];
      losses := losses + [Loss(change)];
      i := i + 1;
    }
    assert Gains(data)[..i - 1] == Gains(data) && Losses(data)[..i - 1] == Losses(data);
  }

  /** One iteration of the smoothing loop: pushing the next value and moving
      the averages on keeps the pushed values followed by the rest equal to
      the whole series. */
  lemma RsiLoopStep(rsi: seq<Num>, gains: seq<real>, losses: seq<real>, period: int, j: int,
                    avgGain: Num, avgLoss: Num, g: Num, l: Num, all: seq<Num>)
    requires j < |gains|
    requires g == Smooth(avgGain, Elem(gains, j), period) && l == Smooth(avgLoss, Elem(losses, j), period)
    requires rsi + RsiFrom(gains, losses, period, j, avgGain, avgLoss) == all
    ensures (rsi + [RsiOf(g, l)]) + RsiFrom(gains, losses, period, j + 1, g, l) == all
  {
    RsiFromStep(gains, losses, period, j, avgGain, avgLoss);
    AppendAssoc(rsi, [RsiOf(g, l)], RsiFrom(gains, losses, period, j + 1, g, l));
  }

  lemma AppendAssoc<T>(a: seq<T>, b: seq<T>, c: seq<T>)
    ensures a + (b + c) == (a + b) + c
  {
  }

  /** The smoothing loop of `calculateRSI`, from the seed averages on. */
  method SmoothingLoop(gains: seq<real>, losses: seq<real>, period: int, seedGain: Num, seedLoss: Num)
    returns (rsi: seq<Num>)
    ensures rsi == RsiFrom(gains, losses, period, period, seedGain, seedLoss)
  {
    ghost var all := RsiFrom(gains, losses, period, period, seedGain, seedLoss);
    var avgGain, avgLoss := seedGain, seedLoss;
    rsi := [];
    var j := period;
    assert rsi + all == all;
    while j < |gains|
      invariant rsi + RsiFrom(gains, losses, period, j, avgGain, avgLoss) == all
      decreases |gains| - j
    {
      var g := Smooth(avgGain, Elem(gains, j), period);
      var l := Smooth(avgLoss, Elem(losses, j), period);
      RsiLoopStep(rsi, gains, losses, period, j, avgGain, avgLoss, g, l, all);
      rsi := rsi + [RsiOf(g, l)];
      avgGain, avgLoss := g, l;
      j := j + 1;
    }
    assert rsi == all;
  }

  /** `calculateRSI`: the split into gains and losses, the seed averages over
      the first `period` entries, then the smoothing loop. */
  method CalculateRsi(data: seq<real>, period: int) returns (rsi: seq<Num>)
    ensures rsi == Rsi(data, period)
  {
    var gains, losses := SplitChanges(data);
    var avgGain := Seed(gains, period);
    var avgLoss := Seed(losses, period);
    rsi := SmoothingLoop(gains, losses, period, avgGain, avgLoss);
  }

  lemma {:induction false} SumNonNegative(s: seq<real>)
    requires forall k | 0 <= k < |s| :: s[k] >= 0.0
    ensures Sum(s) >= 0.0
  {
    if s != [] {
      SumNonNegative(s[1..]);
    }
  }

  /** The RSI formula maps non-negative averages into [0, 100): with no
      losses `rs` is pinned at 100, so the index never reaches 100. */
  lemma RsiOfBounds(avgGain: Num, avgLoss: Num)
    requires avgGain.Fin? && avgLoss.Fin? && avgGain.v >= 0.0 && avgLoss.v >= 0.0
    ensures RsiOf(avgGain, avgLoss).Fin?
    ensures 0.0 <= RsiOf(avgGain, avgLoss).v < 100.0
  {
    var rs := if avgLoss == Fin(0.0) then 100.0 else avgGain.v / avgLoss.v;
    assert rs >= 0.0;
    var d := 1.0 + rs;
    assert 0.0 < 100.0 / d <= 100.0 by {
      assert d >= 1.0;
      assert (100.0 / d) * d == 100.0;
    }
  }

  lemma SmoothNonNegative(avg: Num, x: real, period: int)
    requires period >= 1 && avg.Fin? && avg.v >= 0.0 && x >= 0.0
    ensures Smooth(avg, Fin(x), period).Fin?
    ensures Smooth(avg, Fin(x), period).v >= 0.0
  {
    assert avg.v * (period - 1) as real >= 0.0;
  }

  /** Every value is finite and in [0, 100). */
  predicate InRsiRange(r: seq<Num>) {
    forall k | 0 <= k < |r| :: r[k].Fin? && 0.0 <= r[k].v < 100.0
  }

  predicate AllNaN(r: seq<Num>) {
    forall k | 0 <= k < |r| :: r[k].NaN?
  }

  lemma {:induction false} RsiFromBounds(gains: seq<real>, losses: seq<real>, period: int, i: int,
                                         avgGain: Num, avgLoss: Num)
    requires period >= 1 && i >= 0 && |losses| == |gains|
    requires forall k | 0 <= k < |gains| :: gains[k] >= 0.0 && losses[k] >= 0.0
    requires avgGain.Fin? && avgLoss.Fin? && avgGain.v >= 0.0 && avgLoss.v >= 0.0
    ensures InRsiRange(RsiFrom(gains, losses, period, i, avgGain, avgLoss))
    decreases |gains| - i
  {
    if i < |gains| {
      SmoothNonNegative(avgGain, gains[i], period);
      SmoothNonNegative(avgLoss, losses[i], period);
      var g := Smooth(avgGain, Elem(gains, i), period);
      var l := Smooth(avgLoss, Elem(losses, i), period);
      RsiOfBounds(g, l);
      RsiFromBounds(gains, losses, period, i + 1, g, l);
      RsiFromStep(gains, losses, period, i, avgGain, avgLoss);
      var rest := RsiFrom(gains, losses, period, i + 1, g, l);
      var r := RsiFrom(gains, losses, period, i, avgGain, avgLoss);
      assert r == [RsiOf(g, l)] + rest;
      forall k | 0 <= k < |r|
        ensures r[k].Fin? && 0.0 <= r[k].v < 100.0
      {
        if k > 0 {
          assert r[k] == rest[k - 1];
        }
      }
    }
  }

  lemma GainsNonNegative(data: seq<real>)
    ensures forall k | 0 <= k < |Gains(data)| :: Gains(data)[k] >= 0.0 && Losses(data)[k] >= 0.0
  {
    forall k | 0 <= k < |Gains(data)|
      ensures Gains(data)[k] >= 0.0 && Losses(data)[k] >= 0.0
    {
      GainsLossesSplit(data, k);
    }
  }

  lemma SeedNonNegative(s: seq<real>, period: int)
    requires period >= 1
    requires forall k | 0 <= k < |s| :: s[k] >= 0.0
    ensures Seed(s, period).Fin? && Seed(s, period).v >= 0.0
  {
    var n := if period <= |s| then period else |s|;
    assert SliceTo(s, period) == s[..n];
    SumNonNegative(s[..n]);
  }

  /** For a period of at least one, `calculateRSI` yields one value per move
      after the first `period` moves, each finite and in [0, 100). */
  lemma RsiBounded(data: seq<real>, period: int)
    requires period >= 1
    ensures |Rsi(data, period)| == if |data| - 1 > period then |data| - 1 - period else 0
    ensures InRsiRange(Rsi(data, period))
  {
    var gains := Gains(data);
    var losses := Losses(data);
    GainsNonNegative(data);
    SeedNonNegative(gains, period);
    SeedNonNegative(losses, period);
    RsiFromBounds(gains, losses, period, period, Seed(gains, period), Seed(losses, period));
  }

  /** The period `calculateRSI` uses when its caller gives none. */
  const DefaultRsiPeriod: int := 14

  /** `calculateRSI(data)` with the period argument omitted: one value per
      move after the first 14, each finite and in [0, 100). */
  method CalculateRsiDefault(data: seq<real>) returns (rsi: seq<Num>)
    ensures rsi == Rsi(data, DefaultRsiPeriod)
    ensures |rsi| == if |data| - 1 > DefaultRsiPeriod then |data| - 1 - DefaultRsiPeriod else 0
    ensures InRsiRange(rsi)
  {
    rsi := CalculateRsi(data, DefaultRsiPeriod);
    RsiBounded(data, DefaultRsiPeriod);
  }

  lemma {:induction false} RsiFromNaN(gains: seq<real>, losses: seq<real>, period: int, i: int,
                                      avgGain: Num, avgLoss: Num)
    requires i < 0 || avgLoss.NaN?
    ensures AllNaN(RsiFrom(gains, losses, period, i, avgGain, avgLoss))
    decreases |gains| - i
  {
    if i < |gains| {
      var g := Smooth(avgGain, Elem(gains, i), period);
      var l := Smooth(avgLoss, Elem(losses, i), period);
      assert l.NaN?;
      assert RsiOf(g, l).NaN?;
      RsiFromNaN(gains, losses, period, i + 1, g, l);
      RsiFromStep(gains, losses, period, i, avgGain, avgLoss);
      var rest := RsiFrom(gains, losses, period, i + 1, g, l);
      var r := RsiFrom(gains, losses, period, i, avgGain, avgLoss);
      assert r == [RsiOf(g, l)] + rest;
      forall k | 0 <= k < |r|
        ensures r[k].NaN?
      {
        if k > 0 {
          assert r[k] == rest[k - 1];
        }
      }
    }
  }

  /** A period of zero or less makes every value NaN: zero over zero seeds
      the averages, or a negative index reads `undefined`. There are then
      more values than moves. */
  lemma RsiNonPositivePeriod(data: seq<real>, period: int)
    requires period <= 0
    ensures |Rsi(data, period)| == |Gains(data)| - period
    ensures AllNaN(Rsi(data, period))
  {
    var gains := Gains(data);
    var losses := Losses(data);
    var ag := Seed(gains, period);
    var al := Seed(losses, period);
    if period == 0 {
      assert SliceTo(losses, 0) == [];
      assert Sum(SliceTo(losses, 0)) == 0.0;
      assert al.NaN?;
    }
    RsiFromNaN(gains, losses, period, period, ag, al);
    assert Rsi(data, period) == RsiFrom(gains, losses, period, period, ag, al);
  }

  // ---------------------------------------------------------------------------
  // Historical data

  /** The five arrays of `indicators.quote[0]`; entries may be `null`. */
  datatype QuoteArrays = QuoteArrays(
    open: seq<Value>, high: seq<Value>, low: seq<Value>, close: seq<Value>, volume: seq<Value>)

  /** One `HistoricalData` entry; `instantMs` is the instant whose ISO text
      `date` holds. */
  datatype HistoricalRow = HistoricalRow(
    instantMs: real, open: Value, high: Value, low: Value, close: Value, volume: Value)

  /** The filter of `getHistoricalData`: `close[i] !== null`. A missing entry
      is `undefined`, which passes. */
  predicate Kept(q: QuoteArrays, i: int) {
    At(q.close, i) != Null
  }

  function RowAt(timestamps: seq<real>, q: QuoteArrays, i: nat): HistoricalRow
    requires i < |timestamps|
  {
    HistoricalRow(timestamps[i] * 1000.0, At(q.open, i), At(q.high, i), At(q.low, i),
                  At(q.close, i), At(q.volume, i))
  }

  /** The indices below `n` that the filter keeps, in increasing order. */
  function KeptIndices(q: QuoteArrays, n: nat): (r: seq<nat>)
    ensures |r| <= n
    ensures forall k | 0 <= k < |r| :: r[k] < n
  {
    if n == 0 then [] else KeptIndices(q, n - 1) + (if Kept(q, n - 1) then [n - 1] else [])
  }

  /** An index is listed exactly when it is in range and passes the filter. */
  lemma {:induction false} KeptIndicesExact(q: QuoteArrays, n: nat, i: int)
    ensures i in KeptIndices(q, n) <==> 0 <= i < n && Kept(q, i)
  {
    if n > 0 {
      KeptIndicesExact(q, n - 1, i);
    }
  }

  /** The listed indices increase strictly, so rows keep the order of the
      timestamps and none repeats. */
  lemma {:induction false} KeptIndicesIncreasing(q: QuoteArrays, n: nat)
    ensures forall a, b | 0 <= a < b < |KeptIndices(q, n)| :: KeptIndices(q, n)[a] < KeptIndices(q, n)[b]
  {
    if n > 0 {
      KeptIndicesIncreasing(q, n - 1);
    }
  }

  /** The loop of `getHistoricalData` over the timestamps of a decoded chart. */
  method CollectHistorical(timestamps: seq<real>, q: QuoteArrays) returns (rows: seq<HistoricalRow>)
    ensures |rows| == |KeptIndices(q, |timestamps|)| <= |timestamps|
    ensures forall k | 0 <= k < |rows| ::
              KeptIndices(q, |timestamps|)[k] < |timestamps| &&
              rows[k] == RowAt(timestamps, q, KeptIndices(q, |timestamps|)[k])
  {
    rows := [];
    var i := 0;
    while i < |timestamps|
      invariant 0 <= i <= |timestamps|
      invariant |rows| == |KeptIndices(q, i)|
      invariant forall k | 0 <= k < |rows| :: rows[k] == RowAt(timestamps, q, KeptIndices(q, i)[k])
    {
      if At(q.close, i) != Null {
        rows := rows + [RowAt(timestamps, q, i)];
      }
      i := i + 1;
    }
  }
}
