/** The browser-side quote chain of lib/stockClient.ts: Twelve Data, Alpha
    Vantage, IEX Cloud, the server route, then a fixed mock quote. */
module Client {
  import opened Basics
  import opened Num
  import opened Js

  /** What one `fetch` and its `response.json()` gave: the request threw, or
      a response with its `ok` flag and the decoded body (`None` when
      `json()` throws). */
  datatype Fetch = Threw | Http(ok: bool, body: Option<Value>)

  /** The four remote tiers, in the order they are tried. */
  datatype Provider = TwelveData | AlphaVantage | Iex | Server

  function SourceName(p: Provider): string {
    match p
    case TwelveData => "TwelveData"
    case AlphaVantage => "AlphaVantage"
    case Iex => "IEX"
    case Server => "Server"
  }

  const Zero: Value := Number(Fin(0.0))

  /** The object `fetchRealTimeStock` returns: the eight figures a tier
      fills in with its source name, or the server route's answer relayed
      with `source` set. */
  datatype StockData =
    | Figures(price: Value, change: Value, changePercent: Value, dayHigh: Value, dayLow: Value,
              volume: Value, previousClose: Value, open: Value, source: string)
    | Relayed(fields: Object)

  /** The `source` property of an answer. */
  function SourceOf(r: StockData): Value {
    match r
    case Figures(_, _, _, _, _, _, _, _, source) => Str(source)
    case Relayed(fields) => Prop(Obj(fields), "source")
  }

  /** `parseFloat(x)` and `parseInt(x)` as fields of the result. */
  function F(x: Value): Value {
    Number(ParseFloat(x))
  }

  function I(x: Value): Value {
    Number(ParseInt(x))
  }

  /** A field written `parse(read || default)`: `whenRead` when the value read
      is truthy, `whenDefault` otherwise. */
  predicate ReadOr(field: Value, read: Value, whenRead: Value, whenDefault: Value) {
    (Truthy(read) ==> field == whenRead) && (!Truthy(read) ==> field == whenDefault)
  }

  /** The Twelve Data tier on a decoded body: reading `data.price` of a
      nullish body throws, a falsy price falls through. */
  function FromTwelveData(data: Value): (r: Option<StockData>)
    ensures r.Some? <==> !Nullish(data) && Truthy(Prop(data, "price"))
    ensures r.Some? ==> r.value.Figures? && SourceOf(r.value) == Str("TwelveData")
    ensures r.Some? ==>
              var q := r.value;
              var price := Prop(data, "price");
              && q.price == F(price)
              && ReadOr(q.change, Prop(data, "change"), F(Prop(data, "change")), Zero)
              && ReadOr(q.changePercent, Prop(data, "percent_change"), F(Prop(data, "percent_change")), Zero)
              && ReadOr(q.dayHigh, Prop(data, "high"), F(Prop(data, "high")), F(price))
              && ReadOr(q.dayLow, Prop(data, "low"), F(Prop(data, "low")), F(price))
              && ReadOr(q.volume, Prop(data, "volume"), I(Prop(data, "volume")), Zero)
              && ReadOr(q.previousClose, Prop(data, "previous_close"), F(Prop(data, "previous_close")), F(price))
              && ReadOr(q.open, Prop(data, "open"), F(Prop(data, "open")), F(price))
  {
    ParseZero();
    if Nullish(data) then None
    else
      var price := Prop(data, "price");
      if !Truthy(price) then None
      else Some(Figures(
        price := F(price),
        change := F(Or(Prop(data, "change"), Zero)),
        changePercent := F(Or(Prop(data, "percent_change"), Zero)),
        dayHigh := F(Or(Prop(data, "high"), price)),
        dayLow := F(Or(Prop(data, "low"), price)),
        volume := I(Or(Prop(data, "volume"), Zero)),
        previousClose := F(Or(Prop(data, "previous_close"), price)),
        open := F(Or(Prop(data, "open"), price)),
        source := "TwelveData"))
  }

  /** `parseFloat(0)` and `parseInt(0)` are 0. */
  lemma ParseZero()
    ensures F(Zero) == Zero && I(Zero) == Zero
  {
  }

  /** `x?.replace('%', '')`: nullish gives `undefined`, a string loses its
      first `%`, and any other value has no `replace` method, which throws
      (`None`). */
  function StripPercent(x: Value): (r: Option<Value>)
    ensures Nullish(x) ==> r == Some(Undefined)
    ensures x.Str? ==> r == Some(Str(RemoveFirst(x.s, '%')))
    ensures r.None? <==> !Nullish(x) && !x.Str?
  {
    if Nullish(x) then Some(Undefined)
    else if x.Str? then Some(Str(RemoveFirst(x.s, '%')))
    else None
  }

  /** The Alpha Vantage tier on a decoded body: the figures sit under
      `Global Quote` with numbered keys. */
  function FromAlphaVantage(data: Value): (r: Option<StockData>)
    ensures r.Some? <==>
              && !Nullish(data)
              && Truthy(Prop(data, "Global Quote"))
              && Truthy(Prop(Prop(data, "Global Quote"), "05. price"))
              && StripPercent(Prop(Prop(data, "Global Quote"), "10. change percent")).Some?
    ensures r.Some? ==> r.value.Figures? && SourceOf(r.value) == Str("AlphaVantage")
    ensures r.Some? ==>
              var quote := Prop(data, "Global Quote");
              r.value == AlphaVantageFigures(quote, Prop(quote, "05. price"),
                                             F(Or(StripPercent(Prop(quote, "10. change percent")).value, Zero)))
  {
    if Nullish(data) then None
    else
      var quote := Prop(data, "Global Quote");
      if !Truthy(quote) then None
      else
        var price := Prop(quote, "05. price");
        if !Truthy(price) then None
        else
          match StripPercent(Prop(quote, "10. change percent"))
          case None => None
          case Some(percent) =>
            Some(AlphaVantageFigures(quote, price, F(Or(percent, Zero))))
  }

  /** The figures of an accepted Alpha Vantage quote, given its price and its
      parsed change percent. */
  function AlphaVantageFigures(quote: Value, price: Value, changePercent: Value): (r: StockData)
    ensures r.Figures? && r.changePercent == changePercent && r.source == "AlphaVantage"
    ensures r.price == F(price)
    ensures ReadOr(r.change, Prop(quote, "09. change"), F(Prop(quote, "09. change")), Zero)
    ensures ReadOr(r.dayHigh, Prop(quote, "03. high"), F(Prop(quote, "03. high")), F(price))
    ensures ReadOr(r.dayLow, Prop(quote, "04. low"), F(Prop(quote, "04. low")), F(price))
    ensures ReadOr(r.volume, Prop(quote, "06. volume"), I(Prop(quote, "06. volume")), Zero)
    ensures ReadOr(r.previousClose, Prop(quote, "08. previous close"), F(Prop(quote, "08. previous close")), F(price))
    ensures ReadOr(r.open, Prop(quote, "02. open"), F(Prop(quote, "02. open")), F(price))
  {
    ParseZero();
    Figures(
      price := F(price),
      change := F(Or(Prop(quote, "09. change"), Zero)),
      changePercent := changePercent,
      dayHigh := F(Or(Prop(quote, "03. high"), price)),
      dayLow := F(Or(Prop(quote, "04. low"), price)),
      volume := I(Or(Prop(quote, "06. volume"), Zero)),
      previousClose := F(Or(Prop(quote, "08. previous close"), price)),
      open := F(Or(Prop(quote, "02. open"), price)),
      source := "AlphaVantage")
  }

  /** The IEX tier on a decoded body: values are passed through unparsed. */
  function FromIex(data: Value): (r: Option<StockData>)
    ensures r.Some? <==> !Nullish(data) && Truthy(Prop(data, "latestPrice"))
    ensures r.Some? ==> r.value.Figures? && SourceOf(r.value) == Str("IEX") && r.value.price == Prop(data, "latestPrice")
    ensures r.Some? ==>
              var q := r.value;
              var price := Prop(data, "latestPrice");
              && ReadOr(q.change, Prop(data, "change"), Prop(data, "change"), Zero)
              && ReadOr(q.changePercent, Prop(data, "changePercent"), Prop(data, "changePercent"), Zero)
              && ReadOr(q.dayHigh, Prop(data, "high"), Prop(data, "high"), price)
              && ReadOr(q.dayLow, Prop(data, "low"), Prop(data, "low"), price)
              && ReadOr(q.volume, Prop(data, "volume"), Prop(data, "volume"), Zero)
              && ReadOr(q.previousClose, Prop(data, "previousClose"), Prop(data, "previousClose"), price)
              && ReadOr(q.open, Prop(data, "open"), Prop(data, "open"), price)
  {
    if Nullish(data) then None
    else
      var price := Prop(data, "latestPrice");
      if !Truthy(price) then None
      else Some(Figures(
        price := price,
        change := Or(Prop(data, "change"), Zero),
        changePercent := Or(Prop(data, "changePercent"), Zero),
        dayHigh := Or(Prop(data, "high"), price),
        dayLow := Or(Prop(data, "low"), price),
        volume := Or(Prop(data, "volume"), Zero),
        previousClose := Or(Prop(data, "previousClose"), price),
        open := Or(Prop(data, "open"), price),
        source := "IEX"))
  }

  /** `{...data, source: 'Server'}`: every field of the route's answer, with
      `source` overwritten. Spreading `null` or a number adds nothing. */
  function FromServer(data: Value): (r: Option<StockData>)
    ensures r.Some? && r.value.Relayed? && SourceOf(r.value) == Str("Server")
    ensures data.Obj? ==> r.value.fields.Keys == data.fields.Keys + {"source"}
    ensures data.Obj? ==> forall k | k in data.fields && k != "source" :: r.value.fields[k] == data.fields[k]
    ensures !data.Obj? ==> r.value.fields.Keys == {"source"}
  {
    var spread: Object := if data.Obj? then data.fields else map[];
    Some(Relayed(spread["source" := Str("Server")]))
  }

  function FromBody(p: Provider, data: Value): Option<StockData> {
    match p
    case TwelveData => FromTwelveData(data)
    case AlphaVantage => FromAlphaVantage(data)
    case Iex => FromIex(data)
    case Server => FromServer(data)
  }

  /** One tier's `try` block: `None` when it throws or falls through. */
  function Attempt(p: Provider, f: Fetch): (r: Option<StockData>)
    ensures r.Some? ==> f.Http? && f.ok && f.body.Some?
    ensures f.Http? && f.ok && f.body.Some? ==> r == FromBody(p, f.body.value)
  {
    match f
    case Threw => None
    case Http(ok, body) =>
      if !ok then None
      else match body
        case None => None
        case Some(data) => FromBody(p, data)
  }

  /** The final fallback. */
  const MockQuote: StockData := Figures(
    price := Number(Fin(5.25)),
    change := Number(Fin(0.15)),
    changePercent := Number(Fin(2.94)),
    dayHigh := Number(Fin(5.35)),
    dayLow := Number(Fin(5.10)),
    volume := Number(Fin(7500000.0)),
    previousClose := Number(Fin(5.10)),
    open := Number(Fin(5.15)),
    source := "Mock")

  /** `fetchRealTimeStock`, given what each of the four requests gave. */
  function FetchRealTimeStock(twelve: Fetch, alpha: Fetch, iex: Fetch, server: Fetch): (r: StockData)
    ensures Attempt(TwelveData, twelve).Some? ==> r == Attempt(TwelveData, twelve).value
    ensures Attempt(TwelveData, twelve).None? && Attempt(AlphaVantage, alpha).Some? ==>
              r == Attempt(AlphaVantage, alpha).value
    ensures Attempt(TwelveData, twelve).None? && Attempt(AlphaVantage, alpha).None? && Attempt(Iex, iex).Some?
            ==> r == Attempt(Iex, iex).value
    ensures Attempt(TwelveData, twelve).None? && Attempt(AlphaVantage, alpha).None? && Attempt(Iex, iex).None?
            && Attempt(Server, server).Some?
            ==> r == Attempt(Server, server).value
    ensures Attempt(TwelveData, twelve).None? && Attempt(AlphaVantage, alpha).None? && Attempt(Iex, iex).None?
            && Attempt(Server, server).None?
            ==> r == MockQuote
  {
    var t := Attempt(TwelveData, twelve);
    if t.Some? then t.value
    else
      var a := Attempt(AlphaVantage, alpha);
      if a.Some? then a.value
      else
        var x := Attempt(Iex, iex);
        if x.Some? then x.value
        else
          var s := Attempt(Server, server);
          if s.Some? then s.value
          else MockQuote
  }

  /** The tier that answers: the first whose attempt succeeds, or `None` for
      the mock. */
  function Answering(twelve: Fetch, alpha: Fetch, iex: Fetch, server: Fetch): Option<Provider> {
    if Attempt(TwelveData, twelve).Some? then Some(TwelveData)
    else if Attempt(AlphaVantage, alpha).Some? then Some(AlphaVantage)
    else if Attempt(Iex, iex).Some? then Some(Iex)
    else if Attempt(Server, server).Some? then Some(Server)
    else None
  }

  /** Every answer names the tier that produced it, and always has the
      `source` key. */
  lemma SourceNamesTier(twelve: Fetch, alpha: Fetch, iex: Fetch, server: Fetch)
    ensures var r := FetchRealTimeStock(twelve, alpha, iex, server);
            match Answering(twelve, alpha, iex, server)
            case Some(p) => SourceOf(r) == Str(SourceName(p))
            case None => r == MockQuote && SourceOf(r) == Str("Mock")
  {
  }

  /** A failed request, a non-ok status or an undecodable body makes a tier
      fall through. */
  lemma FailedRequestFallsThrough(p: Provider, f: Fetch)
    requires f.Threw? || (f.Http? && (!f.ok || f.body.None?))
    ensures Attempt(p, f).None?
  {
  }

  /** Once a tier answers, what the later requests do does not matter. */
  lemma LaterTiersIgnored(twelve: Fetch, alpha: Fetch, alpha2: Fetch, iex: Fetch, iex2: Fetch,
                          server: Fetch, server2: Fetch)
    requires Attempt(TwelveData, twelve).Some?
    ensures FetchRealTimeStock(twelve, alpha, iex, server) == FetchRealTimeStock(twelve, alpha2, iex2, server2)
  {
  }

  /** The server tier accepts any ok response that decodes, so the mock is
      only reached when the server route itself fails. */
  lemma ServerDecodesMeansNoMock(twelve: Fetch, alpha: Fetch, iex: Fetch, data: Value)
    ensures SourceOf(FetchRealTimeStock(twelve, alpha, iex, Http(true, Some(data)))) != Str("Mock")
  {
  }

  /** A Twelve Data body with only a price fills the other figures from it:
      the high, low, previous close and open repeat the price, change and
      volume are zero. */
  lemma TwelveDataDefaults(price: string)
    requires price != ""
    ensures var r := FromTwelveData(Obj(map["price" := Str(price)]));
      && r.Some?
      && r.value.price == r.value.dayHigh == r.value.dayLow == r.value.previousClose == r.value.open
      && r.value.change == Zero && r.value.changePercent == Zero && r.value.volume == Zero
  {
    var data := Obj(map["price" := Str(price)]);
    assert Prop(data, "price") == Str(price);
    var r := FromTwelveData(data);
    var q := r.value;
    assert !Truthy(Prop(data, "change")) && !Truthy(Prop(data, "percent_change")) && !Truthy(Prop(data, "volume"));
    assert !Truthy(Prop(data, "high")) && !Truthy(Prop(data, "low"));
    assert !Truthy(Prop(data, "previous_close")) && !Truthy(Prop(data, "open"));
    ParseZero();
  }

  /** Alpha Vantage's percent text loses its first `%` sign before it is
      parsed. */
  lemma AlphaVantagePercent(quote: map<string, Value>, text: string, i: nat)
    requires "05. price" in quote && Truthy(quote["05. price"])
    requires "10. change percent" in quote && quote["10. change percent"] == Str(text)
    requires i < |text| && text[i] == '%' && '%' !in text[..i]
    ensures var r := FromAlphaVantage(Obj(map["Global Quote" := Obj(quote)]));
            r.Some? && r.value.changePercent == F(Or(Str(text[..i] + text[i + 1..]), Zero))
  {
    var data := Obj(map["Global Quote" := Obj(quote)]);
    assert Prop(data, "Global Quote") == Obj(quote);
    RemoveFirstAt(text, '%', i);
  }

  /** A percent field that is a number, not text, makes `replace` throw, so
      the whole Alpha Vantage tier falls through. */
  lemma AlphaVantageNumericPercent(quote: map<string, Value>, n: Num)
    requires "05. price" in quote && Truthy(quote["05. price"])
    requires "10. change percent" in quote && quote["10. change percent"] == Number(n)
    ensures FromAlphaVantage(Obj(map["Global Quote" := Obj(quote)])).None?
  {
  }

  /** The mock figures agree with one another: the change is the price minus
      the previous close, and the percentage is that change over the
      previous close, to two decimals. */
  lemma MockQuoteConsistent()
    ensures var price := MockQuote.price.n.v;
            var previous := MockQuote.previousClose.n.v;
            var change := MockQuote.change.n.v;
            && change == price - previous
            && ToFixed2(100.0 * change / previous) == MockQuote.changePercent.n.v
  {
    var x := 100.0 * 0.15 / 5.10;
    assert 294.0 <= x * 100.0 + 0.5 < 295.0;
    assert (x * 100.0 + 0.5).Floor == 294;
  }
}
