/** The RSU vesting analytics of components/VestingSchedule.tsx: one analysis
    per vesting event at the current price, the vested/unvested split and the
    totals. The schedule and the three tax rates are inputs. */
module Vesting {
  import opened Basics
  import opened Num

  /** One tranche of a grant. `day` is the vest date as a day number (days
      since 1970-01-01); the date text is given already parsed. */
  datatype VestingEvent = VestingEvent(grantId: string, day: int, shares: nat)

  datatype TaxConfig = TaxConfig(federalRate: real, stateRate: real, ficaRate: real)

  const MsPerDay: int := 86400000

  /** The day number of an instant (the local time zone is taken as UTC). */
  function DayOf(ms: int): int {
    ms / MsPerDay
  }

  /** `differenceInDays(later, earlier)`: the number of whole days between two
      instants, negative when `later` is earlier, rounded toward zero. */
  function DifferenceInDays(laterMs: int, earlierMs: int): int {
    var diff := laterMs - earlierMs;
    if diff >= 0 then diff / MsPerDay else -((-diff) / MsPerDay)
  }

  /** The whole days between two instants: never more than the elapsed time,
      and short of it by less than one day. */
  lemma DifferenceInDaysBounds(laterMs: int, earlierMs: int)
    ensures var d := DifferenceInDays(laterMs, earlierMs);
            laterMs >= earlierMs ==> d >= 0 && d * MsPerDay <= laterMs - earlierMs < (d + 1) * MsPerDay
    ensures var d := DifferenceInDays(laterMs, earlierMs);
            laterMs <= earlierMs ==> d <= 0 && (d - 1) * MsPerDay < laterMs - earlierMs <= d * MsPerDay
  {
  }

  function TotalTaxRate(tax: TaxConfig): real {
    tax.federalRate + tax.stateRate + tax.ficaRate
  }

  /** The per-event record built by the `map` callback: the event's own fields
      and the figures derived from the price. */
  datatype EventAnalysis = EventAnalysis(
    event: VestingEvent,
    daysUntilVest: int,
    isVested: bool,
    grossValue: real,
    taxWithholding: real,
    netValue: real,
    sharesWithheld: Num,
    netShares: Num,
    totalTaxRate: real)

  /** The vest date is midnight at the start of its day; it counts as vested
      once that instant is past or falls on today. */
  function AnalyzeEvent(e: VestingEvent, price: real, tax: TaxConfig, nowMs: int): (a: EventAnalysis)
    ensures a.event == e && a.totalTaxRate == TotalTaxRate(tax)
    ensures a.grossValue == e.shares as real * price
    ensures Taxed(a, a.totalTaxRate)
    ensures a.sharesWithheld == SharesWithheld(e.shares, price, a.totalTaxRate)
    ensures a.netShares == Sub(Fin(e.shares as real), a.sharesWithheld)
    ensures a.daysUntilVest == DifferenceInDays(e.day * MsPerDay, nowMs)
  {
    var vestMs := e.day * MsPerDay;
    var rate := TotalTaxRate(tax);
    var isPast := vestMs < nowMs;
    var isToday := DayOf(vestMs) == DayOf(nowMs);
    var gross := e.shares as real * price;
    var withholding := Withholding(gross, rate);
    var withheld := SharesWithheld(e.shares, price, rate);
    EventAnalysis(e, DifferenceInDays(vestMs, nowMs), isPast || isToday, gross, withholding,
                  gross - withholding, withheld, Sub(Fin(e.shares as real), withheld), rate)
  }

  /** Midnight of `day` is past, or on the same day as `nowMs`, exactly when
      `day` is today or earlier. */
  lemma VestedWhen(day: int, nowMs: int)
    ensures (day * MsPerDay < nowMs || DayOf(day * MsPerDay) == DayOf(nowMs)) <==> day <= DayOf(nowMs)
  {
    var d := DayOf(nowMs);
    assert DayOf(day * MsPerDay) == day;
    assert d * MsPerDay <= nowMs < d * MsPerDay + MsPerDay;
    if day < d {
      assert day * MsPerDay <= d * MsPerDay - MsPerDay;
    } else if day > d {
      assert day * MsPerDay >= d * MsPerDay + MsPerDay;
    }
  }

  /** An event counts as vested exactly when its day is today or earlier. */
  lemma EventVestedIffDay(e: VestingEvent, price: real, tax: TaxConfig, nowMs: int)
    ensures AnalyzeEvent(e, price, tax, nowMs).isVested <==> e.day <= DayOf(nowMs)
  {
    VestedWhen(e.day, nowMs);
  }

  /** A vested event's countdown is zero or negative; an unvested one's is not
      negative, and it is positive unless the event vests tomorrow. */
  lemma DaysUntilVestSign(e: VestingEvent, price: real, tax: TaxConfig, nowMs: int)
    ensures AnalyzeEvent(e, price, tax, nowMs).isVested ==> AnalyzeEvent(e, price, tax, nowMs).daysUntilVest <= 0
    ensures !AnalyzeEvent(e, price, tax, nowMs).isVested ==> AnalyzeEvent(e, price, tax, nowMs).daysUntilVest >= 0
    ensures AnalyzeEvent(e, price, tax, nowMs).daysUntilVest == 0 ==>
              e.day == DayOf(nowMs) || e.day == DayOf(nowMs) + 1
  {
    var a := AnalyzeEvent(e, price, tax, nowMs);
    EventVestedIffDay(e, price, tax, nowMs);
    DifferenceInDaysBounds(e.day * MsPerDay, nowMs);
    var today := DayOf(nowMs);
    var t := nowMs % MsPerDay;
    assert nowMs == today * MsPerDay + t && 0 <= t < MsPerDay;
    var k := e.day - today;
    assert e.day * MsPerDay - nowMs == k * MsPerDay - t;
    if a.daysUntilVest == 0 {
      assert -MsPerDay < k * MsPerDay - t < MsPerDay;
      assert k * MsPerDay > -MsPerDay && k * MsPerDay < 2 * MsPerDay;
      assert 0 <= k < 2;
    }
  }

  /** `Math.ceil(taxWithholding / currentPrice)` for a tranche of `n` shares. */
  function SharesWithheld(n: nat, price: real, rate: real): Num {
    Ceil(Div(Fin(n as real * price * rate), Fin(price)))
  }

  /** At a positive price the withheld shares are the tax rate's share of the
      tranche rounded up, and with a rate of at most 100% they never exceed
      the tranche, so the net shares are not negative. At a zero price the
      count is NaN. */
  lemma SharesWithheldRoundsUp(n: nat, price: real, rate: real)
    ensures price > 0.0 ==> SharesWithheld(n, price, rate) == Fin(CeilInt(n as real * rate) as real)
    ensures price > 0.0 && 0.0 <= rate <= 1.0 ==>
              Sub(Fin(n as real), SharesWithheld(n, price, rate)).Fin?
              && Sub(Fin(n as real), SharesWithheld(n, price, rate)).v >= 0.0
    ensures price == 0.0 ==> SharesWithheld(n, price, rate).NaN?
  {
    if price > 0.0 {
      WithheldIsCeiling(n, rate, price);
      if 0.0 <= rate <= 1.0 {
        NetSharesNonNegative(n, rate);
      }
      assert SharesWithheld(n, price, rate) == Fin(CeilInt(n as real * rate) as real);
    }
  }

  lemma WithheldIsCeiling(n: nat, rate: real, price: real)
    requires price > 0.0
    ensures SharesWithheld(n, price, rate) == Fin(CeilInt(n as real * rate) as real)
  {
    var x := n as real * rate;
    var g := n as real * price * rate;
    assert g == x * price;
    PerShare(g, x, price);
  }

  /** The withholding over the price is the tranche's taxed share count. */
  lemma PerShare(g: real, x: real, price: real)
    requires price > 0.0 && g == x * price
    ensures Div(Fin(g), Fin(price)) == Fin(x)
  {
    assert g / price == x;
  }

  lemma NetSharesNonNegative(n: nat, rate: real)
    requires 0.0 <= rate <= 1.0
    ensures CeilInt(n as real * rate) <= n
  {
    AtMostWhole(n as real, rate);
    assert CeilInt(n as real) == n;
    CeilIntMonotone(n as real * rate, n as real);
  }

  lemma AtMostWhole(s: real, rate: real)
    requires s >= 0.0 && rate <= 1.0
    ensures s * rate <= s
  {
    assert s * (1.0 - rate) >= 0.0;
  }

  lemma CeilIntMonotone(x: real, y: real)
    requires x <= y
    ensures CeilInt(x) <= CeilInt(y)
  {
  }

  /** 2500 shares at a combined rate of 38.65% have 967 shares withheld. */
  lemma WithheldExample(price: real)
    requires price > 0.0
    ensures SharesWithheld(2500, price, TotalTaxRate(TaxConfig(0.22, 0.09, 0.0765))) == Fin(967.0)
  {
    SharesWithheldRoundsUp(2500, price, TotalTaxRate(TaxConfig(0.22, 0.09, 0.0765)));
    assert 2500.0 * (0.22 + 0.09 + 0.0765) == 966.25;
  }

  /** `events.filter(e => e.isVested)`. */
  function VestedOf(es: seq<EventAnalysis>): (r: seq<EventAnalysis>)
    ensures forall k :: 0 <= k < |r| ==> r[k].isVested
    ensures |r| <= |es|
  {
    if es == [] then []
    else (if es[0].isVested then [es[0]] else []) + VestedOf(es[1..])
  }

  /** `events.filter(e => !e.isVested)`. */
  function UnvestedOf(es: seq<EventAnalysis>): (r: seq<EventAnalysis>)
    ensures forall k :: 0 <= k < |r| ==> !r[k].isVested
    ensures |r| <= |es|
  {
    if es == [] then []
    else (if es[0].isVested then [] else [es[0]]) + UnvestedOf(es[1..])
  }

  /** `reduce((sum, e) => sum + e.shares, 0)`. */
  function SharesOf(es: seq<EventAnalysis>): (n: nat) {
    if es == [] then 0 else es[0].event.shares + SharesOf(es[1..])
  }

  function GrossOf(es: seq<EventAnalysis>): real {
    if es == [] then 0.0 else es[0].grossValue + GrossOf(es[1..])
  }

  function NetOf(es: seq<EventAnalysis>): real {
    if es == [] then 0.0 else es[0].netValue + NetOf(es[1..])
  }

  function WithholdingOf(es: seq<EventAnalysis>): real {
    if es == [] then 0.0 else es[0].taxWithholding + WithholdingOf(es[1..])
  }

  /** What the `useMemo` callback returns. */
  datatype VestingAnalytics = VestingAnalytics(
    events: seq<EventAnalysis>,
    vestedEvents: seq<EventAnalysis>,
    unvestedEvents: seq<EventAnalysis>,
    nextVesting: Option<EventAnalysis>,
    totalVested: nat,
    totalUnvested: nat,
    totalShares: nat,
    totalGrossValue: real,
    totalNetValue: real,
    totalTaxes: real,
    totalTaxRate: real)

  /** `unvestedEvents[0]`, `undefined` when the list is empty. */
  function First(es: seq<EventAnalysis>): (r: Option<EventAnalysis>)
    ensures r.Some? <==> |es| > 0
    ensures r.Some? ==> r.value == es[0]
  {
    if |es| > 0 then Some(es[0]) else None
  }

  function Analyze(schedule: seq<VestingEvent>, price: real, tax: TaxConfig, nowMs: int)
    : (r: VestingAnalytics)
    ensures |r.events| == |schedule|
    ensures forall i :: 0 <= i < |schedule| ==> r.events[i] == AnalyzeEvent(schedule[i], price, tax, nowMs)
    ensures r.totalTaxRate == TotalTaxRate(tax)
  {
    var events := seq(|schedule|, i requires 0 <= i < |schedule| => AnalyzeEvent(schedule[i], price, tax, nowMs));
    var vested := VestedOf(events);
    var unvested := UnvestedOf(events);
    var gross := GrossOf(events);
    var net := NetOf(events);
    VestingAnalytics(events, vested, unvested, First(unvested), SharesOf(vested), SharesOf(unvested),
                     SharesOf(vested) + SharesOf(unvested), gross, net, gross - net, TotalTaxRate(tax))
  }

  lemma {:induction false} VestedDistributes(a: seq<EventAnalysis>, b: seq<EventAnalysis>)
    ensures VestedOf(a + b) == VestedOf(a) + VestedOf(b)
  {
    if a == [] {
      assert a + b == b;
    } else {
      assert (a + b)[0] == a[0];
      assert (a + b)[1..] == a[1..] + b;
      VestedDistributes(a[1..], b);
    }
  }

  lemma {:induction false} UnvestedDistributes(a: seq<EventAnalysis>, b: seq<EventAnalysis>)
    ensures UnvestedOf(a + b) == UnvestedOf(a) + UnvestedOf(b)
  {
    if a == [] {
      assert a + b == b;
    } else {
      assert (a + b)[0] == a[0];
      assert (a + b)[1..] == a[1..] + b;
      UnvestedDistributes(a[1..], b);
    }
  }

  /** Both filters distribute over concatenation, which is what keeping the
      relative order of the events means. */
  lemma FiltersDistribute(a: seq<EventAnalysis>, b: seq<EventAnalysis>)
    ensures VestedOf(a + b) == VestedOf(a) + VestedOf(b)
    ensures UnvestedOf(a + b) == UnvestedOf(a) + UnvestedOf(b)
  {
    VestedDistributes(a, b);
    UnvestedDistributes(a, b);
  }

  /** Together the two lists hold the events' multiset. */
  lemma {:induction false} FiltersMultiset(es: seq<EventAnalysis>)
    ensures multiset(VestedOf(es)) + multiset(UnvestedOf(es)) == multiset(es)
  {
    if es != [] {
      var t := es[1..];
      FiltersMultiset(t);
      assert es == [es[0]] + t;
      if es[0].isVested {
        assert VestedOf(es) == [es[0]] + VestedOf(t);
        assert UnvestedOf(es) == UnvestedOf(t);
      } else {
        assert VestedOf(es) == VestedOf(t);
        assert UnvestedOf(es) == [es[0]] + UnvestedOf(t);
      }
    }
  }

  lemma {:induction false} VestedMembers(es: seq<EventAnalysis>)
    ensures forall e :: e in VestedOf(es) <==> e in es && e.isVested
  {
    if es != [] {
      var t := es[1..];
      VestedMembers(t);
      assert es == [es[0]] + t;
      assert VestedOf(es) == (if es[0].isVested then [es[0]] else []) + VestedOf(t);
    }
  }

  lemma {:induction false} UnvestedMembers(es: seq<EventAnalysis>)
    ensures forall e :: e in UnvestedOf(es) <==> e in es && !e.isVested
  {
    if es != [] {
      var t := es[1..];
      UnvestedMembers(t);
      assert es == [es[0]] + t;
      assert UnvestedOf(es) == (if es[0].isVested then [] else [es[0]]) + UnvestedOf(t);
    }
  }

  /** Every event lands in exactly one of the two lists: together they hold
      the events' multiset, and each list holds exactly the events of its
      kind. */
  lemma FiltersPartition(es: seq<EventAnalysis>)
    ensures multiset(VestedOf(es)) + multiset(UnvestedOf(es)) == multiset(es)
    ensures forall e :: e in VestedOf(es) <==> e in es && e.isVested
    ensures forall e :: e in UnvestedOf(es) <==> e in es && !e.isVested
  {
    FiltersMultiset(es);
    VestedMembers(es);
    UnvestedMembers(es);
  }

  /** The shares of the two lists add up to the shares of all events. */
  lemma {:induction false} SharesSplit(es: seq<EventAnalysis>)
    ensures SharesOf(VestedOf(es)) + SharesOf(UnvestedOf(es)) == SharesOf(es)
  {
    if es != [] {
      SharesSplit(es[1..]);
      SharesAppend([es[0]], VestedOf(es[1..]));
      SharesAppend([es[0]], UnvestedOf(es[1..]));
      SharesAppend([], VestedOf(es[1..]));
      SharesAppend([], UnvestedOf(es[1..]));
    }
  }

  lemma {:induction false} SharesAppend(a: seq<EventAnalysis>, b: seq<EventAnalysis>)
    ensures SharesOf(a + b) == SharesOf(a) + SharesOf(b)
  {
    if a == [] {
      assert a + b == b;
    } else {
      assert (a + b)[1..] == a[1..] + b;
      SharesAppend(a[1..], b);
    }
  }

  /** The first unvested event: present exactly when some event is unvested,
      and then it is that event of the list that comes first. */
  lemma {:induction false} FirstUnvested(es: seq<EventAnalysis>)
    ensures First(UnvestedOf(es)).Some? <==> exists i :: 0 <= i < |es| && !es[i].isVested
    ensures First(UnvestedOf(es)).Some? ==>
              exists i :: 0 <= i < |es| && First(UnvestedOf(es)).value == es[i] && !es[i].isVested
                          && forall j :: 0 <= j < i ==> es[j].isVested
  {
    if es != [] {
      FirstUnvested(es[1..]);
      if es[0].isVested {
        assert UnvestedOf(es) == UnvestedOf(es[1..]);
        if exists i :: 0 <= i < |es| && !es[i].isVested {
          var i :| 0 <= i < |es| && !es[i].isVested;
          assert 0 <= i - 1 < |es[1..]| && !es[1..][i - 1].isVested;
        }
        if First(UnvestedOf(es)).Some? {
          var i :| 0 <= i < |es[1..]| && First(UnvestedOf(es)).value == es[1..][i] && !es[1..][i].isVested
                   && forall j :: 0 <= j < i ==> es[1..][j].isVested;
          assert forall j :: 0 <= j < i + 1 ==> es[j].isVested by {
            forall j | 0 <= j < i + 1 ensures es[j].isVested {
              if j > 0 { assert es[j] == es[1..][j - 1]; }
            }
          }
        }
      } else {
        assert First(UnvestedOf(es)).value == es[0];
      }
    }
  }

  /** `grossValue * totalTaxRate`. */
  function Withholding(gross: real, rate: real): real {
    gross * rate
  }

  /** An event whose withholding is `rate` of its gross value and whose net
      value is what the withholding leaves. */
  predicate Taxed(a: EventAnalysis, rate: real) {
    a.taxWithholding == Withholding(a.grossValue, rate) && a.netValue == a.grossValue - a.taxWithholding
  }

  /** The gross, net and withheld totals: the taxes are the withholdings, and
      they are the combined rate's share of the gross value. */
  lemma {:induction false} TotalsSplit(es: seq<EventAnalysis>, rate: real)
    requires forall k :: 0 <= k < |es| ==> Taxed(es[k], rate)
    ensures GrossOf(es) - NetOf(es) == WithholdingOf(es)
    ensures WithholdingOf(es) == GrossOf(es) * rate
  {
    if es != [] {
      TotalsSplit(es[1..], rate);
    }
  }

  /** The totals of the vesting summary: all shares, and taxes that are the
      sum of the per-event withholdings (and so, by `TotalsSplit`, the
      combined rate's share of the gross value). */
  lemma AnalyzeTotals(schedule: seq<VestingEvent>, price: real, tax: TaxConfig, nowMs: int)
    ensures var r := Analyze(schedule, price, tax, nowMs);
            r.totalShares == SharesOf(r.events)
            && r.totalVested == SharesOf(r.vestedEvents)
            && r.totalGrossValue == GrossOf(r.events)
            && r.totalNetValue == NetOf(r.events)
            && r.totalTaxes == WithholdingOf(r.events)
  {
    var r := Analyze(schedule, price, tax, nowMs);
    var rate := r.totalTaxRate;
    SharesSplit(r.events);
    forall k | 0 <= k < |r.events| ensures Taxed(r.events[k], rate) {
      var a := AnalyzeEvent(schedule[k], price, tax, nowMs);
      assert r.events[k] == a;
      assert Taxed(a, a.totalTaxRate);
    }
    TotalsSplit(r.events, rate);
    assert r.totalGrossValue == GrossOf(r.events) && r.totalNetValue == NetOf(r.events);
  }

  lemma EventsVestedIffDay(schedule: seq<VestingEvent>, price: real, tax: TaxConfig, nowMs: int)
    ensures forall i :: 0 <= i < |schedule| ==>
              (Analyze(schedule, price, tax, nowMs).events[i].isVested <==> schedule[i].day <= DayOf(nowMs))
  {
    forall i | 0 <= i < |schedule|
      ensures Analyze(schedule, price, tax, nowMs).events[i].isVested <==> schedule[i].day <= DayOf(nowMs)
    {
      EventVestedIffDay(schedule[i], price, tax, nowMs);
    }
  }

  /** The vested list holds exactly the events dated up to today and the
      unvested list the later ones, each event once. */
  lemma AnalyzePartition(schedule: seq<VestingEvent>, price: real, tax: TaxConfig, nowMs: int)
    ensures var r := Analyze(schedule, price, tax, nowMs);
            multiset(r.vestedEvents) + multiset(r.unvestedEvents) == multiset(r.events)
            && (forall e :: e in r.vestedEvents <==> e in r.events && e.event.day <= DayOf(nowMs))
            && (forall e :: e in r.unvestedEvents <==> e in r.events && e.event.day > DayOf(nowMs))
  {
    var r := Analyze(schedule, price, tax, nowMs);
    FiltersPartition(r.events);
    EventsVestedIffDay(schedule, price, tax, nowMs);
    forall e | e in r.events ensures e.isVested <==> e.event.day <= DayOf(nowMs) {
      var i :| 0 <= i < |r.events| && r.events[i] == e;
    }
  }

  /** The next vesting event is the first unvested one in schedule order, not
      the earliest by date; it is absent when everything has vested. */
  lemma NextVestingInScheduleOrder(schedule: seq<VestingEvent>, price: real, tax: TaxConfig, nowMs: int)
    ensures var r := Analyze(schedule, price, tax, nowMs);
            (r.nextVesting.None? <==> forall i :: 0 <= i < |schedule| ==> schedule[i].day <= DayOf(nowMs))
            && (r.nextVesting.Some? ==>
                  exists i :: 0 <= i < |schedule| && r.nextVesting.value.event == schedule[i]
                              && schedule[i].day > DayOf(nowMs)
                              && forall j :: 0 <= j < i ==> schedule[j].day <= DayOf(nowMs))
  {
    var r := Analyze(schedule, price, tax, nowMs);
    FirstUnvested(r.events);
    EventsVestedIffDay(schedule, price, tax, nowMs);
    if r.nextVesting.None? {
      forall i | 0 <= i < |schedule| ensures schedule[i].day <= DayOf(nowMs) {
        assert r.events[i].isVested;
      }
    } else {
      assert exists i :: 0 <= i < |r.events| && !r.events[i].isVested;
    }
  }
}
