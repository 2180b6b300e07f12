/**
  Worked examples: one subscription followed through the market's response
  shape, a sweep, and the two handlers.
 */
module Scenarios {
  import opened Optional
  import PyDict
  import Decimal
  import Api
  import Bounds
  import Store
  import Notifier
  import Handlers

  /** The `USD` quote of a listing. */
  function Usd(price: real): Api.Json
  {
    Api.JObj([("price", Api.JNum(price))])
  }

  /** One listing of the quotes endpoint: id, name and quotes by currency. */
  function Listing(name: string, price: real): Api.Json
  {
    Api.JObj([("id", Api.JNum(1.0)), ("name", Api.JStr(name)), ("quote", Api.JObj([("USD", Usd(price))]))])
  }

  /** A quotes response in the market service's shape: `data` maps the symbol to a list of listings. */
  function Quote(symbol: string, name: string, price: real): (j: Api.Json)
    ensures j.JObj?
  {
    Api.JObj([("data", Api.JObj([(symbol, Api.JArr([Listing(name, price)]))]))])
  }

  /** No object of this response is keyed by ids, so none is unwrapped. */
  lemma NotNumbered(fields: seq<(string, Api.Json)>)
    requires fields != [] && fields[0].0 != [] && !('0' <= fields[0].0[0] <= '9')
    ensures !Api.LeadingKeysNumeric(fields)
  {
    assert PyDict.Keys(fields)[0] == fields[0].0;
  }

  /** The price path through a listing, one step at a time. */
  lemma PriceSteps(name: string, price: real)
    requires price != 0.0
    ensures Api.GetPrice(Quote("BTC", name, price), "BTC") == Api.Found(Api.JNum(price))
  {
    var q := Quote("BTC", name, price);
    var body := q.fields[0].1;
    var listing := Listing(name, price);
    var quote := Api.JObj([("USD", Usd(price))]);
    NotNumbered(body.fields);
    NotNumbered(listing.fields);
    NotNumbered(quote.fields);
    NotNumbered(Usd(price).fields);
    assert Api.Step(body, "BTC") == Api.Found(Api.JArr([listing]));
    assert listing.fields[1..][1..] == [("quote", quote)];
    assert PyDict.Get(listing.fields[1..], "quote") == Some(quote);
    assert Api.Step(Api.JArr([listing]), "quote") == Api.Found(quote);
    assert Api.Step(quote, "USD") == Api.Found(Usd(price));
    assert Api.Step(Usd(price), "price") == Api.Found(Api.JNum(price));
    Api.WalkFollowsPath(body, Api.PricePath("BTC"), [body, Api.JArr([listing]), quote, Usd(price), Api.JNum(price)]);
  }

  /** The name path through a listing. */
  lemma NameSteps(name: string, price: real)
    requires name != []
    ensures Api.GetName(Quote("BTC", name, price), "BTC") == Api.Found(Api.JStr(name))
  {
    var q := Quote("BTC", name, price);
    var body := q.fields[0].1;
    var listing := Listing(name, price);
    NotNumbered(body.fields);
    NotNumbered(listing.fields);
    assert Api.Step(body, "BTC") == Api.Found(Api.JArr([listing]));
    assert PyDict.Get(listing.fields, "name") == Some(Api.JStr(name));
    assert Api.Step(Api.JArr([listing]), "name") == Api.Found(Api.JStr(name));
    Api.WalkFollowsPath(body, Api.NamePath("BTC"), [body, Api.JArr([listing]), Api.JStr(name)]);
  }

  /** A response keyed by ids, as a lookup by slug returns it: the first listing is taken. */
  lemma SymbolById()
    ensures Api.GetSymbol(Api.JObj([("data", Api.JObj([("1", Api.JObj([("symbol", Api.JStr("BTC"))]))]))])) ==
      Api.Found(Api.JStr("BTC"))
  {
    var byId := Api.JObj([("1", Api.JObj([("symbol", Api.JStr("BTC"))]))]);
    assert PyDict.Keys(byId.fields) == ["1"];
    assert Api.LeadingKeysNumeric(byId.fields);
    assert Api.Step(byId, "symbol") == Api.Found(Api.JStr("BTC"));
  }

  /** A market that quotes Bitcoin at `price` and knows no other symbol. */
  function BitcoinAt(price: real): Api.Market
  {
    s => if s == "BTC" then Quote("BTC", "Bitcoin", price) else Api.JObj([("data", Api.JObj([]))])
  }

  /** Chat 1 watches Bitcoin between 10000 and 20000. */
  function Watching(): (d: Store.Data)
    ensures Store.Wf(d)
  {
    map[Store.GlobalKey := [("1", Store.Marker)],
        Store.ChatKey(1) := [("BTC", Store.Bounds(10000.0, 20000.0))]]
  }

  /** The listing is unwrapped from its list and its price and name read along their paths. */
  lemma PriceThroughListing()
    ensures Api.GetPrice(Quote("BTC", "Bitcoin", 15000.0), "BTC") == Api.Found(Api.JNum(15000.0))
    ensures Api.GetName(Quote("BTC", "Bitcoin", 15000.0), "BTC") == Api.Found(Api.JStr("Bitcoin"))
  {
    PriceSteps("Bitcoin", 15000.0);
    NameSteps("Bitcoin", 15000.0);
  }

  /** A symbol the market does not list reads as None, not as a fault. */
  lemma UnknownSymbolIsNone()
    ensures Api.GetPrice(BitcoinAt(15000.0)("DOGE"), "DOGE") == Api.NotFound
  {
  }

  /** A dict holding one subscription. */
  function Single(symbol: string, minimal: real, maximal: real): Store.Record
  {
    [(symbol, Store.Bounds(minimal, maximal))]
  }

  /** A one-entry dict yields its subscription exactly when the price is in range. */
  lemma ScanSingle(symbol: string, minimal: real, maximal: real, market: Api.Market, price: real)
    requires Notifier.PriceOf(market, symbol) == Some(price)
    ensures Notifier.Scan(Single(symbol, minimal, maximal), market) ==
      if minimal <= price <= maximal then Some([Notifier.Match(symbol, minimal, maximal)]) else Some([])
  {
    var e := Single(symbol, minimal, maximal);
    assert e[..|e| - 1] == [];
    assert Notifier.Scan(e[..|e| - 1], market) == Some([]);
    assert e[|e| - 1] == (symbol, Store.Bounds(minimal, maximal));
    assert [] + [Notifier.Match(symbol, minimal, maximal)] == [Notifier.Match(symbol, minimal, maximal)];
  }

  /** Chat 1's dict against a Bitcoin price: its one subscription matches exactly when the price is in range. */
  lemma ScanWatching(price: real)
    requires price != 0.0
    ensures Notifier.Scan(Store.Subscriptions(Watching(), 1), BitcoinAt(price)) ==
      if 10000.0 <= price <= 20000.0 then Some([Notifier.Match("BTC", 10000.0, 20000.0)]) else Some([])
  {
    PriceSteps("Bitcoin", price);
    assert Notifier.PriceOf(BitcoinAt(price), "BTC") == Some(price);
    assert Store.Subscriptions(Watching(), 1) == Single("BTC", 10000.0, 20000.0);
    ScanSingle("BTC", 10000.0, 20000.0, BitcoinAt(price), price);
  }

  /** The sweep over the one registered chat of `Watching`. */
  lemma SweepWatching(market: Api.Market)
    requires Notifier.Scan(Store.Subscriptions(Watching(), 1), market).Some?
    ensures Notifier.SweepSpec(Watching(), ["1"], market) ==
      Notifier.SweepResult(Notifier.Notifications(1, Notifier.Scan(Store.Subscriptions(Watching(), 1), market).value), true)
  {
    Decimal.IntRoundTrip(1);
    assert Decimal.IntToString(1) == "1";
    var snapshot := ["1"];
    assert snapshot[..0] == [];
  }

  /** A price inside the range: the chat gets the summary and one detail. */
  lemma SweepInRange()
    ensures Notifier.SweepSpec(Watching(), ["1"], BitcoinAt(15000.0)) ==
      Notifier.SweepResult([Notifier.Summary(1), Notifier.Detail(1, "BTC", 10000.0, 20000.0)], true)
  {
    ScanWatching(15000.0);
    SweepWatching(BitcoinAt(15000.0));
    var ms := [Notifier.Match("BTC", 10000.0, 20000.0)];
    assert ms[..0] == [];
  }

  /** A price above the range: the sweep completes and sends nothing. */
  lemma SweepAboveRange()
    ensures Notifier.SweepSpec(Watching(), ["1"], BitcoinAt(25000.0)) == Notifier.SweepResult([], true)
  {
    ScanWatching(25000.0);
    SweepWatching(BitcoinAt(25000.0));
  }

  /** `/notify btc 10000 20000` stores the range under the upper-case symbol. */
  lemma NotifyStoresRange(float: string -> Option<real>)
    requires float("10000") == Some(10000.0) && float("20000") == Some(20000.0)
    ensures Handlers.NotifyDecision(["/notify", "btc", "10000", "20000"], BitcoinAt(15000.0), float) ==
      Handlers.Subscribe("BTC", 10000.0, 20000.0)
  {
    assert Handlers.Upper("btc") == "BTC";
    PriceThroughListing();
    var words := ["/notify", "btc", "10000", "20000"];
    assert words[2..] == ["10000", "20000"];
  }

  /** `/notify btc 15000` passes validation and still stores nothing: the popped token leaves nothing to unpack. */
  lemma PointTargetRaises(float: string -> Option<real>)
    requires float("15000") == Some(15000.0)
    ensures Handlers.NotifyDecision(["/notify", "btc", "15000"], BitcoinAt(15000.0), float) ==
      Handlers.Answer(Handlers.Raised)
  {
    assert Handlers.Upper("btc") == "BTC";
    PriceThroughListing();
    var words := ["/notify", "btc", "15000"];
    assert words[2..] == ["15000"];
  }

  /** `/mute all` looks "ALL" up as a currency first; this market knows none, so nothing is muted. */
  lemma MuteAllNeedsCurrencyAll()
    ensures Handlers.MuteDecision(["/mute", "all"], BitcoinAt(15000.0)) == Handlers.Answer(Handlers.NoSuchCurrency("ALL"))
  {
    assert Handlers.Upper("all") == "ALL";
  }
}
