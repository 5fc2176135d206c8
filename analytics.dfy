/** The investment summary of components/AdvancedAnalytics.tsx: totals, the
    average daily gain, linear projections and the return milestones. The
    component declares its own holding constants (the chart component declares
    the same ones), and it fixes the current price at 5.25. */
module Analytics {
  import opened Num

  const Shares: real := 9876.0
  const PurchasePrice: real := 4.05
  /** `PURCHASE_DATE` '2024-07-30' as a day number (days since 1970-01-01). */
  const PurchaseDay: int := 19934
  const CurrentPrice: real := 5.25
  const MsPerDay: int := 86400000

  /** `Math.floor((now - new Date(PURCHASE_DATE)) / (1000 * 60 * 60 * 24))`:
      whole days since midnight UTC of the purchase date, negative before it. */
  function DaysSincePurchase(nowMs: int): int {
    (nowMs - PurchaseDay * MsPerDay) / MsPerDay
  }

  /** The day count is the number of whole days elapsed, rounded down. */
  lemma DaysSincePurchaseBounds(nowMs: int)
    ensures var d := DaysSincePurchase(nowMs);
            d * MsPerDay <= nowMs - PurchaseDay * MsPerDay < (d + 1) * MsPerDay
  {
  }

  function TotalInvestment(): real {
    Shares * PurchasePrice
  }

  datatype Summary = Summary(
    totalInvestment: real,
    currentValue: real,
    totalGain: real,
    percentGain: Num,
    daysSincePurchase: int,
    dailyGainRate: Num,
    projected30: Num,
    projected90: Num,
    projected1Year: Num)

  /** `currentValue + dailyGainRate * days`. */
  function Project(currentValue: real, rate: Num, days: real): Num {
    Add(Fin(currentValue), Mul(rate, Fin(days)))
  }

  /** The summary at a given price and day count; the component uses
      `CurrentPrice` and the day count of the clock. */
  function SummaryAt(price: real, days: int): (s: Summary)
    ensures s.totalInvestment == Shares * PurchasePrice
    ensures s.currentValue == Shares * price
    ensures s.totalGain == s.currentValue - s.totalInvestment
    ensures s.percentGain == Fin(100.0 * s.totalGain / s.totalInvestment)
    ensures s.daysSincePurchase == days
    ensures days != 0 ==> s.dailyGainRate == Fin(s.totalGain / days as real)
    ensures days == 0 ==> !s.dailyGainRate.Fin? && (s.dailyGainRate.NaN? <==> price == PurchasePrice)
  {
    var investment := TotalInvestment();
    var value := Shares * price;
    var gain := value - investment;
    GainSign(price);
    var rate := Div(Fin(gain), Fin(days as real));
    Summary(investment, value, gain, Percent(gain, investment), days, rate,
            Project(value, rate, 30.0), Project(value, rate, 90.0), Project(value, rate, 365.0))
  }

  /** The gain has the sign of the price's distance from the purchase price. */
  lemma GainSign(price: real)
    ensures Shares * price - TotalInvestment() == Shares * (price - PurchasePrice)
    ensures Shares * price - TotalInvestment() == 0.0 <==> price == PurchasePrice
    ensures Shares * price - TotalInvestment() > 0.0 <==> price > PurchasePrice
  {
  }

  /** What the component computes at the instant `nowMs`. */
  function SummaryNow(nowMs: int): (s: Summary)
    ensures s.currentValue == 51849.0 && s.totalGain == 11851.2
    ensures s.daysSincePurchase == DaysSincePurchase(nowMs)
  {
    SummaryAt(CurrentPrice, DaysSincePurchase(nowMs))
  }

  /** Each projection lies the daily rate times its horizon above the current
      value; with a non-negative total gain after a positive day count the
      projections grow with the horizon. On the purchase day itself there is
      no finite projection. */
  lemma ProjectionsLinear(price: real, days: int)
    ensures var s := SummaryAt(price, days);
            days != 0 ==>
              s.projected30 == Fin(s.currentValue + s.totalGain / days as real * 30.0)
              && s.projected90 == Fin(s.currentValue + s.totalGain / days as real * 90.0)
              && s.projected1Year == Fin(s.currentValue + s.totalGain / days as real * 365.0)
    ensures var s := SummaryAt(price, days);
            days > 0 && s.totalGain >= 0.0 ==>
              s.projected30.v <= s.projected90.v <= s.projected1Year.v
    ensures var s := SummaryAt(price, days);
            days == 0 ==> !s.projected30.Fin? && !s.projected90.Fin? && !s.projected1Year.Fin?
  {
    var s := SummaryAt(price, days);
    if days != 0 {
      var r := s.totalGain / days as real;
      assert s.dailyGainRate == Fin(r);
      assert s.projected30 == Fin(s.currentValue + r * 30.0);
      assert s.projected90 == Fin(s.currentValue + r * 90.0);
      assert s.projected1Year == Fin(s.currentValue + r * 365.0);
      if days > 0 && s.totalGain >= 0.0 {
        QuotientNonNegative(s.totalGain, days as real);
      }
    }
  }

  lemma QuotientNonNegative(x: real, y: real)
    requires x >= 0.0 && y > 0.0
    ensures x / y >= 0.0
  {
  }

  /** The hard-coded price of 5.25 is a gain of about 29.6% on the 4.05 cost. */
  lemma CurrentPriceGain()
    ensures var s := SummaryAt(CurrentPrice, 1);
            s.totalGain == 11851.2 && 29.62 < s.percentGain.v < 29.63
  {
    var s := SummaryAt(CurrentPrice, 1);
    assert s.totalGain == 11851.2;
    assert s.percentGain.v == 100.0 * 11851.2 / 39997.8;
  }

  /** The return levels the component lists, in percent. */
  const MilestonePercents: seq<real> := [10.0, 25.0, 50.0, 100.0]

  datatype Milestone = Milestone(percent: real, targetValue: real, priceNeeded: real, isAchieved: bool)

  /** One milestone row: the value and price that give the return, and whether
      the holding has reached it. */
  function MilestoneAt(m: real, currentValue: real): (r: Milestone)
    ensures r.percent == m
    ensures r.targetValue == TotalInvestment() * (1.0 + m / 100.0)
    ensures r.priceNeeded == PurchasePrice * (1.0 + m / 100.0)
    ensures r.isAchieved <==> currentValue >= r.targetValue
    ensures !r.isAchieved ==> r.targetValue - currentValue > 0.0
  {
    var target := TotalInvestment() * (1.0 + m / 100.0);
    Milestone(m, target, target / Shares, currentValue >= target)
  }

  /** `[10, 25, 50, 100].map(...)` at the price's value. */
  function Milestones(price: real): (ms: seq<Milestone>)
    ensures |ms| == |MilestonePercents|
    ensures forall k :: 0 <= k < |ms| ==> ms[k] == MilestoneAt(MilestonePercents[k], Shares * price)
  {
    seq(|MilestonePercents|, k requires 0 <= k < |MilestonePercents| => MilestoneAt(MilestonePercents[k], Shares * price))
  }

  /** A milestone is reached exactly when the price has reached the price it
      names. */
  lemma AchievedIffPrice(m: real, price: real)
    ensures MilestoneAt(m, Shares * price).isAchieved <==> price >= PurchasePrice * (1.0 + m / 100.0)
  {
    var f := 1.0 + m / 100.0;
    assert Shares * PurchasePrice * f == Shares * (PurchasePrice * f);
  }

  /** The reached milestones form a prefix of the list: reaching one means
      every smaller one is reached too. */
  lemma AchievedPrefix(price: real, i: int, j: int)
    requires 0 <= i <= j < |MilestonePercents|
    ensures Milestones(price)[j].isAchieved ==> Milestones(price)[i].isAchieved
  {
    var ms := Milestones(price);
    assert MilestonePercents[i] <= MilestonePercents[j];
    var fi := 1.0 + MilestonePercents[i] / 100.0;
    var fj := 1.0 + MilestonePercents[j] / 100.0;
    assert TotalInvestment() * fi <= TotalInvestment() * fj;
  }

  /** At the hard-coded 5.25 the +10% and +25% milestones are met and the
      +50% and +100% ones are not. */
  lemma MilestonesAtCurrentPrice()
    ensures var ms := Milestones(CurrentPrice);
            ms[0].isAchieved && ms[1].isAchieved && !ms[2].isAchieved && !ms[3].isAchieved
  {
    var ms := Milestones(CurrentPrice);
    assert Shares * CurrentPrice == 51849.0;
    assert ms[1].targetValue == 49997.25;
    assert ms[2].targetValue == 59996.7;
    assert ms[3].targetValue == 79995.6;
  }
}
