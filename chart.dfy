/** The price series of components/StockChart.tsx: a clamped random walk from
    the purchase price, one point per day since the purchase date, cut to the
    selected time range. The `Math.random()` draws are an input sequence, one
    per day. */
module Chart {
  import opened Basics
  import opened Num
  import opened Js
  import Analytics

  const Trend: real := 0.001
  const Volatility: real := 0.02
  const PriceFloor: real := 3.5
  const PriceCeiling: real := 6.5

  /** `PURCHASE_PRICE * SHARES`. */
  function Cost(): real {
    Analytics.Shares * Analytics.PurchasePrice
  }

  /** `(Math.random() - 0.5) * volatility` for the draw `r`. */
  function RandomChange(r: real): real {
    (r - 0.5) * Volatility
  }

  /** `1 + trend + randomChange` for the draw `r`. */
  function Multiplier(r: real): real {
    1.0 + Trend + RandomChange(r)
  }

  /** A draw of `Math.random()` moves the price by -0.9% to +1.1%. */
  lemma MultiplierRange(r: real)
    requires IsRandom(r)
    ensures -0.01 <= RandomChange(r) < 0.01
    ensures 0.991 <= Multiplier(r) < 1.011
  {
  }

  /** `Math.max(3.5, Math.min(6.5, x))`. */
  function Clamp(x: real): (p: real)
    ensures PriceFloor <= p <= PriceCeiling
    ensures PriceFloor <= x <= PriceCeiling ==> p == x
    ensures x < PriceFloor ==> p == PriceFloor
    ensures x > PriceCeiling ==> p == PriceCeiling
  {
    Max(PriceFloor, Min(PriceCeiling, x))
  }

  /** One day's move: the price times the multiplier, clamped. */
  function Step(base: real, r: real): real {
    Clamp(base * Multiplier(r))
  }

  /** The price the next step starts from: the last one, or the purchase
      price before the first step. */
  function Last(ps: seq<real>): real {
    if ps == [] then Analytics.PurchasePrice else ps[|ps| - 1]
  }

  /** The prices after each of the draws. */
  function Walk(draws: seq<real>): (ps: seq<real>)
    ensures |ps| == |draws|
    ensures forall k :: 0 <= k < |ps| ==> PriceFloor <= ps[k] <= PriceCeiling
  {
    if draws == [] then []
    else
      var ps := Walk(draws[..|draws| - 1]);
      ps + [Step(Last(ps), draws[|draws| - 1])]
  }

  /** The walk over a prefix of the draws is the prefix of the walk. */
  lemma {:induction false} WalkPrefix(draws: seq<real>, k: nat)
    requires k <= |draws|
    ensures Walk(draws[..k]) == Walk(draws)[..k]
    decreases |draws|
  {
    if k < |draws| {
      var d := draws[..|draws| - 1];
      WalkPrefix(d, k);
      assert d[..k] == draws[..k];
      assert Walk(draws)[..|draws| - 1] == Walk(d);
      assert Walk(draws)[..k] == Walk(d)[..k];
    } else {
      assert draws[..k] == draws;
    }
  }

  /** Each price is one step from the one before it, the first one step from
      the purchase price. */
  lemma WalkSteps(draws: seq<real>, k: nat)
    requires k < |draws|
    ensures Walk(draws)[k] == Step(if k == 0 then Analytics.PurchasePrice else Walk(draws)[k - 1], draws[k])
  {
    WalkPrefix(draws, k + 1);
    WalkPrefix(draws, k);
    var d := draws[..k + 1];
    assert d[..|d| - 1] == draws[..k];
    assert Walk(d) == Walk(draws[..k]) + [Step(Last(Walk(draws[..k])), draws[k])];
  }

  /** One point: the rounded price, value, gain and gain percent. The
      formatted date labels are not modelled; `day` is the day number. */
  datatype ChartPoint = ChartPoint(day: int, price: real, value: real, gain: real, gainPercent: real)

  function PointAt(day: int, p: real): ChartPoint {
    var value := p * Analytics.Shares;
    var gain := value - Cost();
    ChartPoint(day, ToFixed2(p), ToFixed2(value), ToFixed2(gain), ToFixed2(gain / Cost() * 100.0))
  }

  lemma WalkAppend(draws: seq<real>, i: nat)
    requires i < |draws|
    ensures Walk(draws[..i + 1]) == Walk(draws[..i]) + [Step(Last(Walk(draws[..i])), draws[i])]
  {
    assert draws[..i + 1][..i] == draws[..i];
  }

  /** The points of a walk, dated from the purchase day on. */
  function Points(ps: seq<real>): (pts: seq<ChartPoint>)
    ensures |pts| == |ps|
    ensures forall k :: 0 <= k < |ps| ==> pts[k] == PointAt(Analytics.PurchaseDay + k, ps[k])
  {
    seq(|ps|, k requires 0 <= k < |ps| => PointAt(Analytics.PurchaseDay + k, ps[k]))
  }

  lemma PointsAppend(ps: seq<real>, p: real)
    ensures Points(ps + [p]) == Points(ps) + [PointAt(Analytics.PurchaseDay + |ps|, p)]
  {
    assert forall k :: 0 <= k < |ps| ==> (ps + [p])[k] == ps[k];
  }

  /** The number of points: `daysSincePurchase + 1` because the loop bound is
      inclusive, none before the purchase date. */
  function PointCount(nowMs: int): (n: nat)
    ensures Analytics.DaysSincePurchase(nowMs) >= 0 ==> n == Analytics.DaysSincePurchase(nowMs) + 1
    ensures Analytics.DaysSincePurchase(nowMs) < 0 ==> n == 0
  {
    var days := Analytics.DaysSincePurchase(nowMs);
    if days < 0 then 0 else days + 1
  }

  /** The full series for the first `n` draws. */
  function Series(draws: seq<real>, n: nat): seq<ChartPoint>
    requires n <= |draws|
  {
    Points(Walk(draws[..n]))
  }

  /** How many trailing points a range keeps; 'ALL' and any other text keep
      them all. */
  function RangeLength(timeRange: string): (k: Option<nat>)
    ensures timeRange == "1W" ==> k == Some(7)
    ensures timeRange == "1M" ==> k == Some(30)
    ensures timeRange == "3M" ==> k == Some(90)
    ensures timeRange != "1W" && timeRange != "1M" && timeRange != "3M" ==> k.None?
  {
    if timeRange == "1W" then Some(7)
    else if timeRange == "1M" then Some(30)
    else if timeRange == "3M" then Some(90)
    else None
  }

  /** `data.slice(-k)` for the range's `k`. */
  function FilterByRange<T>(data: seq<T>, timeRange: string): (r: seq<T>)
    ensures RangeLength(timeRange).None? ==> r == data
    ensures RangeLength(timeRange).Some? ==> |r| == Min(|data| as real, RangeLength(timeRange).value as real) as int
    ensures r == data[|data| - |r|..]
  {
    match RangeLength(timeRange)
    case None => data
    case Some(k) => if k >= |data| then data else data[|data| - k..]
  }

  /** Every range keeps the last point, so the latest data shown is the same
      whichever range is selected. */
  lemma LatestSameForEveryRange<T>(data: seq<T>, range1: string, range2: string)
    requires data != []
    ensures FilterByRange(data, range1) != [] && FilterByRange(data, range2) != []
    ensures FilterByRange(data, range1)[|FilterByRange(data, range1)| - 1]
            == FilterByRange(data, range2)[|FilterByRange(data, range2)| - 1]
            == data[|data| - 1]
  {
    var r1 := FilterByRange(data, range1);
    var r2 := FilterByRange(data, range2);
    assert |r1| > 0 && |r2| > 0;
  }

  /** `generateChartData`: the loop moves the price one step per day since
      the purchase date, the purchase day included, and pushes that day's
      point; the result is the selected range of the series. */
  method GenerateChartData(nowMs: int, draws: seq<real>, timeRange: string) returns (chartData: seq<ChartPoint>)
    requires |draws| >= PointCount(nowMs)
    ensures chartData == FilterByRange(Series(draws, PointCount(nowMs)), timeRange)
  {
    var data: seq<ChartPoint> := [];
    var days := Analytics.DaysSincePurchase(nowMs);
    var basePrice := Analytics.PurchasePrice;
    ghost var prices: seq<real> := [];
    var i := 0;
    while i <= days
      invariant 0 <= i <= PointCount(nowMs)
      invariant prices == Walk(draws[..i])
      invariant basePrice == Last(prices)
      invariant data == Points(prices)
    {
      basePrice := Step(basePrice, draws[i]);
      PointsAppend(prices, basePrice);
      data := data + [PointAt(Analytics.PurchaseDay + i, basePrice)];
      WalkAppend(draws, i);
      prices := prices + [basePrice];
      i := i + 1;
    }
    assert i == PointCount(nowMs);
    chartData := FilterByRange(data, timeRange);
  }

  /** Every shown price is a whole number of cents in [3.5, 6.5]. */
  lemma SeriesBounded(draws: seq<real>, n: nat)
    requires n <= |draws|
    ensures |Series(draws, n)| == n
    ensures forall k :: 0 <= k < n ==>
              PriceFloor <= Series(draws, n)[k].price <= PriceCeiling && IsCents(Series(draws, n)[k].price)
  {
    var ps := Walk(draws[..n]);
    forall k | 0 <= k < n
      ensures PriceFloor <= Series(draws, n)[k].price <= PriceCeiling && IsCents(Series(draws, n)[k].price)
    {
      PointPriceBounded(ps[k]);
    }
  }

  lemma PointPriceBounded(p: real)
    requires PriceFloor <= p <= PriceCeiling
    ensures PriceFloor <= ToFixed2(p) <= PriceCeiling && IsCents(ToFixed2(p))
  {
    ToFixed2Monotone(PriceFloor, p);
    ToFixed2Monotone(p, PriceCeiling);
    ToFixed2Cents(350);
    ToFixed2Cents(650);
    ToFixed2Nearest(p);
  }

  /** A point's value is its price times the share count, and its gain is the
      value less the cost. The unrounded gain is non-negative exactly when the
      price has reached the purchase price; the rounded gain is non-negative
      exactly when the unrounded one is above -0.005. */
  lemma PointGain(day: int, p: real)
    ensures PointAt(day, p).value == ToFixed2(p * Analytics.Shares)
    ensures PointAt(day, p).gain == ToFixed2(p * Analytics.Shares - Cost())
    ensures p * Analytics.Shares - Cost() >= 0.0 <==> p >= Analytics.PurchasePrice
    ensures PointAt(day, p).gain >= 0.0 <==> p * Analytics.Shares - Cost() > -0.005
  {
    Analytics.GainSign(p);
    ToFixed2NonNegative(p * Analytics.Shares - Cost());
  }
}
