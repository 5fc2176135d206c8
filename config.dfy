/** The portfolio settings and company constants of lib/config.ts. */
module Config {
  import opened Basics
  import opened Num
  import opened Js

  /** An environment variable as `process.env` yields it: absent is
      `undefined`. */
  function EnvValue(env: Option<string>): (v: Value)
    ensures env.None? ==> v == Undefined
    ensures env.Some? ==> v == Str(env.value)
  {
    match env
    case None => Undefined
    case Some(s) => Str(s)
  }

  const DefaultShares: string := "9876"
  const DefaultPurchasePrice: string := "4.05"
  const DefaultPurchaseDate: string := "2025-07-30"
  const Symbol: string := "UWMC"

  const SharesOutstanding: real := 1590000000.0
  const AvgVolume: real := 7500000.0
  const Week52High: real := 8.54
  const Week52Low: real := 3.36

  /** `SHARES`: `parseInt(NEXT_PUBLIC_SHARES || '9876')`. */
  function Shares(env: Option<string>): (n: Num)
    ensures n.Fin? || n.NaN?
    ensures n.Fin? ==> n.v == n.v.Floor as real
  {
    ParseInt(Or(EnvValue(env), Str(DefaultShares)))
  }

  /** `PURCHASE_PRICE`: `parseFloat(NEXT_PUBLIC_PURCHASE_PRICE || '4.05')`. */
  function PurchasePrice(env: Option<string>): Num {
    ParseFloat(Or(EnvValue(env), Str(DefaultPurchasePrice)))
  }

  /** `PURCHASE_DATE`: the variable's text unless it is absent or empty. */
  function PurchaseDate(env: Option<string>): (d: string)
    ensures env.Some? && env.value != "" ==> d == env.value
    ensures env.None? || env == Some("") ==> d == DefaultPurchaseDate
  {
    Or(EnvValue(env), Str(DefaultPurchaseDate)).s
  }

  /** With the variable absent or empty the holding is 9876 shares. */
  lemma SharesDefault(env: Option<string>)
    requires env.None? || env == Some("")
    ensures Shares(env) == Fin(9876.0)
  {
    assert DefaultShares == NatText(9876);
    ParseIntNatText(9876);
  }

  /** A variable holding the decimal text of a share count sets that count. */
  lemma SharesOverride(n: nat)
    ensures Shares(Some(NatText(n))) == Fin(n as real)
  {
    ParseIntNatText(n);
  }

  lemma ParseFloatDefaultPrice()
    ensures ParseFloatText(DefaultPurchasePrice) == Fin(4.05)
  {
    var s := DefaultPurchasePrice;
    assert SkipSpace(s, 0) == 0;
    NotHasAt(s, 0, "Infinity");
    DigitsEndAt(s, 0, 1, 10);
    DigitsEndAt(s, 2, 4, 10);
    assert s[0..1] == "4" && s[2..4] == "05";
    assert DigitsValue("05", 10) == 5;
    ParseFloatPointed(s, 1, 4, 4, 5);
  }

  /** With the variable absent or empty the purchase price is 4.05. */
  lemma PurchasePriceDefault(env: Option<string>)
    requires env.None? || env == Some("")
    ensures PurchasePrice(env) == Fin(4.05)
  {
    ParseFloatDefaultPrice();
  }

  /** A whole-number price in the variable is read as that number. */
  lemma PurchasePriceOverride(n: nat)
    ensures PurchasePrice(Some(NatText(n))) == Fin(n as real)
  {
    ParseFloatNatText(n);
  }

  /** `calculateMarketCap`: the price times the shares outstanding. */
  function CalculateMarketCap(price: real): (cap: real)
    ensures cap / SharesOutstanding == price
    ensures price >= 0.0 ==> cap >= 0.0
    ensures price == 0.0 ==> cap == 0.0
  {
    price * SharesOutstanding
  }

  /** A higher price never gives a lower market capitalisation. */
  lemma MarketCapMonotone(p: real, q: real)
    requires p <= q
    ensures CalculateMarketCap(p) <= CalculateMarketCap(q)
  {
    assert (q - p) * SharesOutstanding >= 0.0;
  }

  /** The constant 52-week range is ordered. */
  lemma Week52RangeOrdered()
    ensures Week52Low <= Week52High
  {
  }
}
