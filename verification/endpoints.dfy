/** The facade methods of the client: each one fixes an endpoint path and
    renders its typed arguments into query pairs through `Query.Encode`.
    Lists of ids and currencies are joined with the literal three-character
    string "%2C", price windows with ",", flags render as "true"/"false",
    integers in decimal and dates as `dd-mm-yyyy`. */
module Endpoints {
  import opened Optional
  import opened Text
  import opened Query
  import opened Dates
  import opened QueryParams
  import opened Client

  /** Rust's `i64`. */
  type Int64 = x: int | -0x8000_0000_0000_0000 <= x < 0x8000_0000_0000_0000

  /** Separator for id, currency and contract-address lists. */
  const IdSeparator: string := "%2C"

  function JoinIds(ids: seq<string>): string
  {
    Join(ids, IdSeparator)
  }

  /** Tokens of a list of price windows, in order: `get_string` of each
      window, as written (so `Days30` is sent as "14d", `Days200` as "30d"). */
  function PriceChangeTokens(ws: seq<PriceChange>): (ts: seq<string>)
    ensures |ts| == |ws|
    ensures forall i :: 0 <= i < |ws| ==> ts[i] == PriceChangeString(ws[i])
  {
    seq(|ws|, i requires 0 <= i < |ws| => PriceChangeString(ws[i]))
  }

  /** The tokens with the corrected window mapping. */
  function IntendedPriceChangeTokens(ws: seq<PriceChange>): (ts: seq<string>)
    ensures |ts| == |ws|
    ensures forall i :: 0 <= i < |ws| ==> ts[i] == IntendedPriceChangeString(ws[i])
  {
    seq(|ws|, i requires 0 <= i < |ws| => IntendedPriceChangeString(ws[i]))
  }

  /** The written and the corrected tokens agree on every list without the
      30-day and 200-day windows, and differ on every list with one. */
  lemma WrittenTokensAgree(ws: seq<PriceChange>)
    ensures (forall i :: 0 <= i < |ws| ==> ws[i] != Days30 && ws[i] != Days200)
            <==> PriceChangeTokens(ws) == IntendedPriceChangeTokens(ws)
  {
    var ts, us := PriceChangeTokens(ws), IntendedPriceChangeTokens(ws);
    if forall i :: 0 <= i < |ws| ==> ws[i] != Days30 && ws[i] != Days200 {
      forall i | 0 <= i < |ws|
        ensures ts[i] == us[i]
      {
        IntendedPriceChangeInjective(ws[i], ws[i]);
      }
    } else {
      var i :| 0 <= i < |ws| && (ws[i] == Days30 || ws[i] == Days200);
      IntendedPriceChangeInjective(ws[i], ws[i]);
      assert ts[i] != us[i];
    }
  }

  /** The `price_change` value: the window tokens joined with ",". */
  function PriceChangeValue(ws: seq<PriceChange>): string
  {
    Join(PriceChangeTokens(ws), ",")
  }

  function OptionalIds(ids: Option<seq<string>>): Option<string>
  {
    match ids
    case None => None
    case Some(xs) => Some(JoinIds(xs))
  }

  function OptionalWindows(ws: Option<seq<PriceChange>>): Option<string>
  {
    match ws
    case None => None
    case Some(xs) => Some(PriceChangeValue(xs))
  }

  function OptionalInt(n: Option<Int64>): Option<string>
  {
    match n
    case None => None
    case Some(v) => Some(IntToDecimal(v))
  }

  /** Endpoint of a per-coin resource: "/coins/" + id + suffix. */
  function CoinPath(id: string, suffix: string): string
  {
    "/coins/" + id + suffix
  }

  /** Reads the coin id back out of a per-coin endpoint with the given suffix. */
  function CoinIdOf(path: string, suffix: string): Option<string>
  {
    if |path| >= 7 + |suffix| && path[..7] == "/coins/" && path[|path| - |suffix|..] == suffix
    then Some(path[7..|path| - |suffix|])
    else None
  }

  /** The coin id is recoverable from the endpoint: distinct ids give
      distinct endpoints. */
  lemma CoinPathRoundTrip(id: string, suffix: string)
    ensures CoinIdOf(CoinPath(id, suffix), suffix) == Some(id)
  {
    var p := CoinPath(id, suffix);
    assert p[..7] == "/coins/";
    assert p[|p| - |suffix|..] == suffix;
    assert p[7..|p| - |suffix|] == id;
  }

  // ---------------------------------------------------------------------
  // /simple
  // ---------------------------------------------------------------------

  /** `simple_supportedvscurrencies`: no query at all. */
  function SimpleSupportedVsCurrencies(): (r: Request)
    ensures r.endpoint == "/simple/supported_vs_currencies" && r.query.None?
  {
    Request("/simple/supported_vs_currencies", None)
  }

  function SimplePriceArgs(ids: string, vsCurrencies: string, includeMarketCap: string,
                           include24hrChange: string, include24hrVol: string,
                           includeLastUpdatedAt: string, precision: string): seq<Arg>
  {
    [ ("ids", Some(ids)),
      ("vs_currencies", Some(vsCurrencies)),
      ("include_market_cap", Some(includeMarketCap)),
      ("include_24hr_change", Some(include24hrChange)),
      ("include_24hr_vol", Some(include24hrVol)),
      ("include_last_updated_at", Some(includeLastUpdatedAt)),
      ("precision", Some(precision)) ]
  }

  /** The `simple_price` arguments rendered: ids and currencies joined, the
      flags as "true"/"false", the 24h change before the 24h volume. */
  function SimplePriceRendered(ids: seq<string>, vsCurrencies: seq<string>, includeMarketCap: bool,
                               include24hrVol: bool, include24hrChange: bool,
                               includeLastUpdatedAt: bool, precision: string): seq<Arg>
  {
    SimplePriceArgs(JoinIds(ids), JoinIds(vsCurrencies), BoolToString(includeMarketCap),
                    BoolToString(include24hrChange), BoolToString(include24hrVol),
                    BoolToString(includeLastUpdatedAt), precision)
  }

  /** `simple_price`: seven pairs, the 24h change before the 24h volume
      although the flags are passed volume first. */
  function SimplePrice(ids: seq<string>, vsCurrencies: seq<string>, includeMarketCap: bool,
                       include24hrVol: bool, include24hrChange: bool,
                       includeLastUpdatedAt: bool, precision: string): (r: Request)
    ensures r.endpoint == "/simple/price" && r.query.Some?
    ensures Keys(r.query.value) == ["ids", "vs_currencies", "include_market_cap", "include_24hr_change",
                                    "include_24hr_vol", "include_last_updated_at", "precision"]
    ensures DistinctKeys(r.query.value)
  {
    var args := SimplePriceRendered(ids, vsCurrencies, includeMarketCap, include24hrVol,
                                    include24hrChange, includeLastUpdatedAt, precision);
    SimplePriceArgsNames(args[0].1.value, args[1].1.value, args[2].1.value, args[3].1.value,
                         args[4].1.value, args[5].1.value, args[6].1.value);
    Request("/simple/price", Some(Encode(args)))
  }

  lemma SimplePriceArgsNames(ids: string, vsCurrencies: string, includeMarketCap: string,
                             include24hrChange: string, include24hrVol: string,
                             includeLastUpdatedAt: string, precision: string)
    ensures var ps := Encode(SimplePriceArgs(ids, vsCurrencies, includeMarketCap, include24hrChange,
                                             include24hrVol, includeLastUpdatedAt, precision));
      && Keys(ps) == ["ids", "vs_currencies", "include_market_cap", "include_24hr_change",
                      "include_24hr_vol", "include_last_updated_at", "precision"]
      && DistinctKeys(ps)
  {
    var args := SimplePriceArgs(ids, vsCurrencies, includeMarketCap, include24hrChange,
                                include24hrVol, includeLastUpdatedAt, precision);
    EncodeDistinct(args);
    PresentNamesAll(args);
  }

  lemma SimplePriceArgsLookups(ids: string, vsCurrencies: string, includeMarketCap: string,
                               include24hrChange: string, include24hrVol: string,
                               includeLastUpdatedAt: string, precision: string)
    ensures var ps := Encode(SimplePriceArgs(ids, vsCurrencies, includeMarketCap, include24hrChange,
                                             include24hrVol, includeLastUpdatedAt, precision));
      && Lookup(ps, "ids") == Some(ids)
      && Lookup(ps, "vs_currencies") == Some(vsCurrencies)
      && Lookup(ps, "include_market_cap") == Some(includeMarketCap)
      && Lookup(ps, "include_24hr_change") == Some(include24hrChange)
      && Lookup(ps, "include_24hr_vol") == Some(include24hrVol)
      && Lookup(ps, "include_last_updated_at") == Some(includeLastUpdatedAt)
      && Lookup(ps, "precision") == Some(precision)
  {
    var args := SimplePriceArgs(ids, vsCurrencies, includeMarketCap, include24hrChange,
                                include24hrVol, includeLastUpdatedAt, precision);
    assert DistinctNames(args);
    EncodeLookup(args, 0);
    EncodeLookup(args, 1);
    EncodeLookup(args, 2);
    EncodeLookup(args, 3);
    EncodeLookup(args, 4);
    EncodeLookup(args, 5);
    EncodeLookup(args, 6);
  }

  /** Each `simple_price` argument lands under its own name, the two 24h
      flags included. */
  lemma SimplePriceValues(ids: seq<string>, vsCurrencies: seq<string>, includeMarketCap: bool,
                          include24hrVol: bool, include24hrChange: bool,
                          includeLastUpdatedAt: bool, precision: string)
    ensures var ps := SimplePrice(ids, vsCurrencies, includeMarketCap, include24hrVol,
                                  include24hrChange, includeLastUpdatedAt, precision).query.value;
      && Lookup(ps, "ids") == Some(JoinIds(ids))
      && Lookup(ps, "vs_currencies") == Some(JoinIds(vsCurrencies))
      && Lookup(ps, "include_market_cap") == Some(BoolToString(includeMarketCap))
      && Lookup(ps, "include_24hr_change") == Some(BoolToString(include24hrChange))
      && Lookup(ps, "include_24hr_vol") == Some(BoolToString(include24hrVol))
      && Lookup(ps, "include_last_updated_at") == Some(BoolToString(includeLastUpdatedAt))
      && Lookup(ps, "precision") == Some(precision)
  {
    SimplePriceArgsLookups(JoinIds(ids), JoinIds(vsCurrencies), BoolToString(includeMarketCap),
                           BoolToString(include24hrChange), BoolToString(include24hrVol),
                           BoolToString(includeLastUpdatedAt), precision);
  }

  /** `simple_price_short`: every flag set and precision "max". */
  function SimplePriceShort(ids: seq<string>, vsCurrencies: seq<string>): (r: Request)
    ensures r == SimplePrice(ids, vsCurrencies, true, true, true, true, "max")
    ensures forall i :: 2 <= i < 6 ==> r.query.value[i].1 == "true"
    ensures r.query.value[6] == ("precision", "max")
  {
    var r := SimplePrice(ids, vsCurrencies, true, true, true, true, "max");
    EncodeAllPresent(SimplePriceRendered(ids, vsCurrencies, true, true, true, true, "max"));
    r
  }

  /** The eight `simple_tokenprice` pairs, rendered, in the order sent. */
  function SimpleTokenPriceArgs(id: string, vsCurrencies: string, includeMarketCap: string,
                                include24hrChange: string, include24hrVol: string,
                                includeLastUpdatedAt: string, precision: string,
                                contractAddresses: string): seq<Arg>
  {
    [ ("id", Some(id)),
      ("vs_currencies", Some(vsCurrencies)),
      ("include_market_cap", Some(includeMarketCap)),
      ("include_24hr_change", Some(include24hrChange)),
      ("include_24hr_vol", Some(include24hrVol)),
      ("include_last_updated_at", Some(includeLastUpdatedAt)),
      ("precision", Some(precision)),
      ("contract_addresses", Some(contractAddresses)) ]
  }

  /** `simple_tokenprice`: as written it targets "/simple/price" and sends
      the platform id under "id", with the contract addresses last. */
  function SimpleTokenPrice(id: string, vsCurrencies: seq<string>, contractAddresses: seq<string>,
                            includeMarketCap: bool, include24hrVol: bool, include24hrChange: bool,
                            includeLastUpdatedAt: bool, precision: string): (r: Request)
    ensures r.endpoint == "/simple/price" && r.query.Some?
    ensures Keys(r.query.value) == ["id", "vs_currencies", "include_market_cap", "include_24hr_change",
                                    "include_24hr_vol", "include_last_updated_at", "precision",
                                    "contract_addresses"]
    ensures DistinctKeys(r.query.value)
  {
    var args := SimpleTokenPriceArgs(id, JoinIds(vsCurrencies), BoolToString(includeMarketCap),
                                     BoolToString(include24hrChange), BoolToString(include24hrVol),
                                     BoolToString(includeLastUpdatedAt), precision, JoinIds(contractAddresses));
    SimpleTokenPriceArgsNames(args[0].1.value, args[1].1.value, args[2].1.value, args[3].1.value,
                              args[4].1.value, args[5].1.value, args[6].1.value, args[7].1.value);
    Request("/simple/price", Some(Encode(args)))
  }

  lemma SimpleTokenPriceArgsNames(id: string, vsCurrencies: string, includeMarketCap: string,
                                  include24hrChange: string, include24hrVol: string,
                                  includeLastUpdatedAt: string, precision: string,
                                  contractAddresses: string)
    ensures var ps := Encode(SimpleTokenPriceArgs(id, vsCurrencies, includeMarketCap, include24hrChange,
                                                  include24hrVol, includeLastUpdatedAt, precision,
                                                  contractAddresses));
      && Keys(ps) == ["id", "vs_currencies", "include_market_cap", "include_24hr_change",
                      "include_24hr_vol", "include_last_updated_at", "precision", "contract_addresses"]
      && DistinctKeys(ps)
  {
    var args := SimpleTokenPriceArgs(id, vsCurrencies, includeMarketCap, include24hrChange,
                                     include24hrVol, includeLastUpdatedAt, precision, contractAddresses);
    EncodeDistinct(args);
    PresentNamesAll(args);
  }

  lemma SimpleTokenPriceArgsLookups(id: string, vsCurrencies: string, includeMarketCap: string,
                                    include24hrChange: string, include24hrVol: string,
                                    includeLastUpdatedAt: string, precision: string,
                                    contractAddresses: string)
    ensures var ps := Encode(SimpleTokenPriceArgs(id, vsCurrencies, includeMarketCap, include24hrChange,
                                                  include24hrVol, includeLastUpdatedAt, precision,
                                                  contractAddresses));
      && Lookup(ps, "id") == Some(id)
      && Lookup(ps, "vs_currencies") == Some(vsCurrencies)
      && Lookup(ps, "include_market_cap") == Some(includeMarketCap)
      && Lookup(ps, "include_24hr_change") == Some(include24hrChange)
      && Lookup(ps, "include_24hr_vol") == Some(include24hrVol)
      && Lookup(ps, "include_last_updated_at") == Some(includeLastUpdatedAt)
      && Lookup(ps, "precision") == Some(precision)
      && Lookup(ps, "contract_addresses") == Some(contractAddresses)
  {
    var args := SimpleTokenPriceArgs(id, vsCurrencies, includeMarketCap, include24hrChange,
                                     include24hrVol, includeLastUpdatedAt, precision, contractAddresses);
    assert DistinctNames(args);
    EncodeLookup(args, 0);
    EncodeLookup(args, 1);
    EncodeLookup(args, 2);
    EncodeLookup(args, 3);
    EncodeLookup(args, 4);
    EncodeLookup(args, 5);
    EncodeLookup(args, 6);
    EncodeLookup(args, 7);
  }

  /** Each `simple_tokenprice` argument lands under its own name. */
  lemma SimpleTokenPriceValues(id: string, vsCurrencies: seq<string>, contractAddresses: seq<string>,
                               includeMarketCap: bool, include24hrVol: bool, include24hrChange: bool,
                               includeLastUpdatedAt: bool, precision: string)
    ensures var ps := SimpleTokenPrice(id, vsCurrencies, contractAddresses, includeMarketCap,
                                       include24hrVol, include24hrChange, includeLastUpdatedAt, precision).query.value;
      && Lookup(ps, "id") == Some(id)
      && Lookup(ps, "vs_currencies") == Some(JoinIds(vsCurrencies))
      && Lookup(ps, "include_market_cap") == Some(BoolToString(includeMarketCap))
      && Lookup(ps, "include_24hr_change") == Some(BoolToString(include24hrChange))
      && Lookup(ps, "include_24hr_vol") == Some(BoolToString(include24hrVol))
      && Lookup(ps, "include_last_updated_at") == Some(BoolToString(includeLastUpdatedAt))
      && Lookup(ps, "precision") == Some(precision)
      && Lookup(ps, "contract_addresses") == Some(JoinIds(contractAddresses))
  {
    SimpleTokenPriceArgsLookups(id, JoinIds(vsCurrencies), BoolToString(includeMarketCap),
                                BoolToString(include24hrChange), BoolToString(include24hrVol),
                                BoolToString(includeLastUpdatedAt), precision, JoinIds(contractAddresses));
  }

  // ---------------------------------------------------------------------
  // /coins
  // ---------------------------------------------------------------------

  /** `coins_list`: the one pair include_platform=true. */
  function CoinsList(): (r: Request)
    ensures r.endpoint == "/coins/list" && r.query.Some?
    ensures Keys(r.query.value) == ["include_platform"]
    ensures Lookup(r.query.value, "include_platform") == Some("true")
  {
    Request("/coins/list", Some([("include_platform", "true")]))
  }

  /** The six `coins_markets` arguments, already rendered, in the order the
      client pushes them. */
  function CoinsMarketsArgs(vsCurrency: string, order: string, sparkline: string,
                            ids: Option<string>, priceChange: Option<string>,
                            page: Option<string>): seq<Arg>
  {
    [ ("vs_currency", Some(vsCurrency)),
      ("order", Some(order)),
      ("sparkline", Some(sparkline)),
      ("ids", ids),
      ("price_change", priceChange),
      ("page", page) ]
  }

  /** `coins_markets`. */
  function CoinsMarkets(vsCurrency: string, ids: Option<seq<string>>, ordering: MarketOrder,
                        priceChange: Option<seq<PriceChange>>, sparkline: bool,
                        page: Option<Int64>): (r: Request)
    ensures r.endpoint == "/coins/markets" && r.query.Some?
    ensures DistinctKeys(r.query.value)
  {
    var args := CoinsMarketsArgs(vsCurrency, MarketOrderString(ordering), BoolToString(sparkline),
                                 OptionalIds(ids), OptionalWindows(priceChange), OptionalInt(page));
    EncodeDistinct(args);
    Request("/coins/markets", Some(Encode(args)))
  }

  lemma CoinsMarketsArgsNames(vsCurrency: string, order: string, sparkline: string,
                              ids: Option<string>, priceChange: Option<string>, page: Option<string>)
    ensures PresentNames(CoinsMarketsArgs(vsCurrency, order, sparkline, ids, priceChange, page))
         == ["vs_currency", "order", "sparkline"]
            + OptKey("ids", ids.Some?) + OptKey("price_change", priceChange.Some?) + OptKey("page", page.Some?)
  {
    var args := CoinsMarketsArgs(vsCurrency, order, sparkline, ids, priceChange, page);
    RequiredThenOptional(args, 3);
    OptionalNames3(args[3..]);
  }

  lemma CoinsMarketsArgsLookups(vsCurrency: string, order: string, sparkline: string,
                                ids: Option<string>, priceChange: Option<string>, page: Option<string>)
    ensures var ps := Encode(CoinsMarketsArgs(vsCurrency, order, sparkline, ids, priceChange, page));
      && Lookup(ps, "vs_currency") == Some(vsCurrency)
      && Lookup(ps, "order") == Some(order)
      && Lookup(ps, "sparkline") == Some(sparkline)
      && Lookup(ps, "ids") == ids
      && Lookup(ps, "price_change") == priceChange
      && Lookup(ps, "page") == page
  {
    var args := CoinsMarketsArgs(vsCurrency, order, sparkline, ids, priceChange, page);
    assert DistinctNames(args);
    EncodeLookup(args, 0);
    EncodeLookup(args, 1);
    EncodeLookup(args, 2);
    EncodeLookup(args, 3);
    EncodeLookup(args, 4);
    EncodeLookup(args, 5);
  }

  /** vs_currency, order and sparkline always come first; ids, price_change
      and page follow in that order, each present exactly when its argument
      is, so there are 3 pairs plus one per supplied option. */
  lemma CoinsMarketsKeys(vsCurrency: string, ids: Option<seq<string>>, ordering: MarketOrder,
                         priceChange: Option<seq<PriceChange>>, sparkline: bool,
                         page: Option<Int64>)
    ensures var ps := CoinsMarkets(vsCurrency, ids, ordering, priceChange, sparkline, page).query.value;
      && Keys(ps) == ["vs_currency", "order", "sparkline"]
                     + (if ids.Some? then ["ids"] else [])
                     + (if priceChange.Some? then ["price_change"] else [])
                     + (if page.Some? then ["page"] else [])
      && |ps| == 3 + Present(ids) + Present(priceChange) + Present(page)
  {
    CoinsMarketsArgsNames(vsCurrency, MarketOrderString(ordering), BoolToString(sparkline),
                          OptionalIds(ids), OptionalWindows(priceChange), OptionalInt(page));
  }

  /** What `coins_markets` sends under each name. */
  lemma CoinsMarketsValues(vsCurrency: string, ids: Option<seq<string>>, ordering: MarketOrder,
                           priceChange: Option<seq<PriceChange>>, sparkline: bool,
                           page: Option<Int64>)
    ensures var ps := CoinsMarkets(vsCurrency, ids, ordering, priceChange, sparkline, page).query.value;
      && Lookup(ps, "vs_currency") == Some(vsCurrency)
      && Lookup(ps, "order") == Some(MarketOrderString(ordering))
      && Lookup(ps, "sparkline") == Some(BoolToString(sparkline))
      && Lookup(ps, "ids") == (if ids.Some? then Some(JoinIds(ids.value)) else None)
      && Lookup(ps, "price_change") == (if priceChange.Some? then Some(PriceChangeValue(priceChange.value)) else None)
      && Lookup(ps, "page") == (if page.Some? then Some(IntToDecimal(page.value)) else None)
  {
    CoinsMarketsArgsLookups(vsCurrency, MarketOrderString(ordering), BoolToString(sparkline),
                            OptionalIds(ids), OptionalWindows(priceChange), OptionalInt(page));
  }

  /** The `price_change` value of N windows has exactly N - 1 commas, none
      at either end, and splitting it at the commas gives back the N tokens. */
  lemma PriceChangeValueSplits(ws: seq<PriceChange>)
    requires |ws| >= 1
    ensures var v := PriceChangeValue(ws);
      && Count(v, ',') == |ws| - 1
      && v[0] != ',' && v[|v| - 1] != ','
      && Split(v, ',') == PriceChangeTokens(ws)
  {
    var ts := PriceChangeTokens(ws);
    forall i | 0 <= i < |ts|
      ensures ',' !in ts[i] && |ts[i]| >= 1
    {
      PriceChangeReencode(ws[i], "");
    }
    assert "," == [','];
    JoinOnChar(ts, ',');
  }

  /** As written, asking for the 30-day change sends the same value as
      asking for the 14-day change, and the 200-day change asks for 30 days. */
  lemma PriceChangeValueCollision()
    ensures PriceChangeValue([Days30]) == PriceChangeValue([Days14]) == "14d"
    ensures PriceChangeValue([Days200]) == "30d"
  {
    assert PriceChangeTokens([Days30]) == ["14d"];
    assert PriceChangeTokens([Days14]) == ["14d"];
    assert PriceChangeTokens([Days200]) == ["30d"];
  }

  /** Ids are joined with the three characters "%2C": N ids bring exactly
      N - 1 more '%' characters than they contain themselves. */
  lemma IdsValueSeparators(ids: seq<string>)
    requires |ids| >= 1
    ensures Count(JoinIds(ids), '%') == SumCounts(ids, '%') + |ids| - 1
    ensures ids[0] <= JoinIds(ids)
  {
    assert Count("%2C", '%') == 1 by {
      assert "%2C"[1..] == "2C" && "2C"[1..] == "C" && "C"[1..] == "";
    }
    JoinCount(ids, IdSeparator, '%');
  }

  /** Two windows render as their tokens around one comma. */
  lemma WindowsExample()
    ensures PriceChangeValue([Days7, Years1]) == "7d,1y"
  {
    var ws := [Days7, Years1];
    var ts := PriceChangeTokens(ws);
    assert ts[0] == "7d" by {
      assert ws[0] == Days7;
    }
    assert ts[1] == "1y" by {
      assert ws[1] == Years1;
    }
    assert ts[1..] == ["1y"];
    assert Join(ts, ",") == ts[0] + "," + Join(ts[1..], ",");
  }

  /** The names sent for a market snapshot without ids but with windows
      and a page: five pairs, price_change before page. */
  lemma MarketSnapshotKeys(vsCurrency: string, ordering: MarketOrder, ws: seq<PriceChange>,
                           sparkline: bool, page: Int64)
    ensures var r := CoinsMarkets(vsCurrency, None, ordering, Some(ws), sparkline, Some(page));
      && r.endpoint == "/coins/markets"
      && Keys(r.query.value) == ["vs_currency", "order", "sparkline", "price_change", "page"]
  {
    CoinsMarketsArgsNames(vsCurrency, MarketOrderString(ordering), BoolToString(sparkline),
                          None, Some(PriceChangeValue(ws)), Some(IntToDecimal(page)));
  }

  /** The values sent for the same request. */
  lemma MarketSnapshotValues(vsCurrency: string)
    ensures var ps := CoinsMarkets(vsCurrency, None, MarketCapDesc, Some([Days7, Years1]), false, Some(1)).query.value;
      && Lookup(ps, "vs_currency") == Some(vsCurrency)
      && Lookup(ps, "order") == Some("market_cap_desc")
      && Lookup(ps, "sparkline") == Some("false")
      && Lookup(ps, "ids") == None
      && Lookup(ps, "price_change") == Some("7d,1y")
      && Lookup(ps, "page") == Some("1")
  {
    CoinsMarketsValues(vsCurrency, None, MarketCapDesc, Some([Days7, Years1]), false, Some(1));
    WindowsExample();
    OneExample();
  }

  lemma OneExample()
    ensures IntToDecimal(1) == "1"
  {
    assert NatToDecimal(1) == [DigitChar(1)];
  }

  /** The six `coins` flags, rendered, in the order sent. */
  function CoinsArgs(localization: string, tickers: string, marketData: string,
                     communityData: string, developerData: string, sparkline: string): seq<Arg>
  {
    [ ("localization", Some(localization)),
      ("tickers", Some(tickers)),
      ("market_data", Some(marketData)),
      ("community_data", Some(communityData)),
      ("developer_data", Some(developerData)),
      ("sparkline", Some(sparkline)) ]
  }

  function CoinsRendered(localization: bool, tickers: bool, marketData: bool,
                         communityData: bool, developerData: bool, sparkline: bool): seq<Arg>
  {
    CoinsArgs(BoolToString(localization), BoolToString(tickers), BoolToString(marketData),
              BoolToString(communityData), BoolToString(developerData), BoolToString(sparkline))
  }

  /** `coins`: endpoint "/coins/{id}" and exactly six flags in a fixed order. */
  function Coins(id: string, localization: bool, tickers: bool, marketData: bool,
                 communityData: bool, developerData: bool, sparkline: bool): (r: Request)
    ensures CoinIdOf(r.endpoint, "") == Some(id)
    ensures r.query.Some?
    ensures Keys(r.query.value) == ["localization", "tickers", "market_data", "community_data",
                                    "developer_data", "sparkline"]
    ensures DistinctKeys(r.query.value)
  {
    var args := CoinsRendered(localization, tickers, marketData, communityData, developerData, sparkline);
    CoinsArgsNames(args[0].1.value, args[1].1.value, args[2].1.value,
                   args[3].1.value, args[4].1.value, args[5].1.value);
    CoinPathRoundTrip(id, "");
    Request(CoinPath(id, ""), Some(Encode(args)))
  }

  lemma CoinsArgsNames(localization: string, tickers: string, marketData: string,
                       communityData: string, developerData: string, sparkline: string)
    ensures var ps := Encode(CoinsArgs(localization, tickers, marketData, communityData, developerData, sparkline));
      && Keys(ps) == ["localization", "tickers", "market_data", "community_data", "developer_data", "sparkline"]
      && DistinctKeys(ps)
  {
    var args := CoinsArgs(localization, tickers, marketData, communityData, developerData, sparkline);
    EncodeDistinct(args);
    PresentNamesAll(args);
  }

  lemma CoinsArgsLookups(localization: string, tickers: string, marketData: string,
                         communityData: string, developerData: string, sparkline: string)
    ensures var ps := Encode(CoinsArgs(localization, tickers, marketData, communityData, developerData, sparkline));
      && Lookup(ps, "localization") == Some(localization)
      && Lookup(ps, "tickers") == Some(tickers)
      && Lookup(ps, "market_data") == Some(marketData)
      && Lookup(ps, "community_data") == Some(communityData)
      && Lookup(ps, "developer_data") == Some(developerData)
      && Lookup(ps, "sparkline") == Some(sparkline)
  {
    var args := CoinsArgs(localization, tickers, marketData, communityData, developerData, sparkline);
    assert DistinctNames(args);
    EncodeLookup(args, 0);
    EncodeLookup(args, 1);
    EncodeLookup(args, 2);
    EncodeLookup(args, 3);
    EncodeLookup(args, 4);
    EncodeLookup(args, 5);
  }

  /** Each `coins` flag lands under its own name. */
  lemma CoinsValues(id: string, localization: bool, tickers: bool, marketData: bool,
                    communityData: bool, developerData: bool, sparkline: bool)
    ensures var ps := Coins(id, localization, tickers, marketData, communityData, developerData, sparkline).query.value;
      && Lookup(ps, "localization") == Some(BoolToString(localization))
      && Lookup(ps, "tickers") == Some(BoolToString(tickers))
      && Lookup(ps, "market_data") == Some(BoolToString(marketData))
      && Lookup(ps, "community_data") == Some(BoolToString(communityData))
      && Lookup(ps, "developer_data") == Some(BoolToString(developerData))
      && Lookup(ps, "sparkline") == Some(BoolToString(sparkline))
  {
    CoinsArgsLookups(BoolToString(localization), BoolToString(tickers), BoolToString(marketData),
                     BoolToString(communityData), BoolToString(developerData), BoolToString(sparkline));
  }

  /** `coins_short`: `coins` with all six flags set. */
  function CoinsShort(id: string): (r: Request)
    ensures r == Coins(id, true, true, true, true, true, true)
    ensures |r.query.value| == 6
    ensures forall i :: 0 <= i < 6 ==> r.query.value[i].1 == "true"
  {
    var r := Coins(id, true, true, true, true, true, true);
    EncodeAllPresent(CoinsRendered(true, true, true, true, true, true));
    r
  }

  // ---------------------------------------------------------------------
  // /coins/{id}/...
  // ---------------------------------------------------------------------

  /** The `coins_tickers` arguments, rendered, in push order. */
  function CoinsTickersArgs(includeExchangeLogo: string, page: string, order: string,
                            exchangeIds: Option<string>): seq<Arg>
  {
    [ ("include_exchange_logo", Some(includeExchangeLogo)),
      ("page", Some(page)),
      ("order", Some(order)),
      ("exchange_ids", exchangeIds) ]
  }

  /** `coins_tickers`: endpoint "/coins/{id}/tickers"; the exchange ids,
      when given, are joined with "%2C" and sent last. */
  function CoinsTickers(id: string, exchangeIds: Option<seq<string>>, includeExchangeLogo: bool,
                        page: Int64, order: TrustOrder): (r: Request)
    ensures CoinIdOf(r.endpoint, "/tickers") == Some(id)
    ensures r.query.Some? && DistinctKeys(r.query.value)
  {
    var args := CoinsTickersArgs(BoolToString(includeExchangeLogo), IntToDecimal(page),
                                 TrustOrderString(order), OptionalIds(exchangeIds));
    EncodeDistinct(args);
    CoinPathRoundTrip(id, "/tickers");
    Request(CoinPath(id, "/tickers"), Some(Encode(args)))
  }

  lemma CoinsTickersArgsNames(includeExchangeLogo: string, page: string, order: string,
                              exchangeIds: Option<string>)
    ensures PresentNames(CoinsTickersArgs(includeExchangeLogo, page, order, exchangeIds))
         == ["include_exchange_logo", "page", "order"] + OptKey("exchange_ids", exchangeIds.Some?)
  {
    var args := CoinsTickersArgs(includeExchangeLogo, page, order, exchangeIds);
    RequiredThenOptional(args, 3);
    assert args[3..] == [("exchange_ids", exchangeIds)];
  }

  lemma CoinsTickersArgsLookups(includeExchangeLogo: string, page: string, order: string,
                                exchangeIds: Option<string>)
    ensures var ps := Encode(CoinsTickersArgs(includeExchangeLogo, page, order, exchangeIds));
      && Lookup(ps, "include_exchange_logo") == Some(includeExchangeLogo)
      && Lookup(ps, "page") == Some(page)
      && Lookup(ps, "order") == Some(order)
      && Lookup(ps, "exchange_ids") == exchangeIds
  {
    var args := CoinsTickersArgs(includeExchangeLogo, page, order, exchangeIds);
    assert DistinctNames(args);
    EncodeLookup(args, 0);
    EncodeLookup(args, 1);
    EncodeLookup(args, 2);
    EncodeLookup(args, 3);
  }

  /** Three pairs always, a fourth exactly when exchange ids are given. */
  lemma CoinsTickersKeys(id: string, exchangeIds: Option<seq<string>>, includeExchangeLogo: bool,
                         page: Int64, order: TrustOrder)
    ensures Keys(CoinsTickers(id, exchangeIds, includeExchangeLogo, page, order).query.value)
         == ["include_exchange_logo", "page", "order"] + (if exchangeIds.Some? then ["exchange_ids"] else [])
  {
    CoinsTickersArgsNames(BoolToString(includeExchangeLogo), IntToDecimal(page),
                          TrustOrderString(order), OptionalIds(exchangeIds));
  }

  /** The page number is sent in decimal and reads back as the same `i64`;
      the ordering is sent as its token and reads back as the same ordering. */
  lemma CoinsTickersValues(id: string, exchangeIds: Option<seq<string>>, includeExchangeLogo: bool,
                           page: Int64, order: TrustOrder)
    ensures var ps := CoinsTickers(id, exchangeIds, includeExchangeLogo, page, order).query.value;
      && Lookup(ps, "include_exchange_logo") == Some(BoolToString(includeExchangeLogo))
      && Lookup(ps, "page").Some? && ParseInt(Lookup(ps, "page").value) == Some(page as int)
      && Lookup(ps, "order").Some? && ParseTrustOrder(Lookup(ps, "order").value) == Some(order)
      && Lookup(ps, "exchange_ids") == (if exchangeIds.Some? then Some(JoinIds(exchangeIds.value)) else None)
  {
    CoinsTickersArgsLookups(BoolToString(includeExchangeLogo), IntToDecimal(page),
                            TrustOrderString(order), OptionalIds(exchangeIds));
    ParseRendered(page);
    TrustOrderTokens(order, order, "");
  }

  function CoinsHistoryArgs(date: string, localization: Option<string>): seq<Arg>
  {
    [ ("date", Some(date)), ("localization", localization) ]
  }

  /** `coins_history`: endpoint "/coins/{id}/history", the date in
      `dd-mm-yyyy` form, then the localization when given. */
  function CoinsHistory(id: string, date: Date, localization: Option<string>): (r: Request)
    requires ValidDate(date)
    ensures CoinIdOf(r.endpoint, "/history") == Some(id)
    ensures r.query.Some? && DistinctKeys(r.query.value)
  {
    var args := CoinsHistoryArgs(FormatDate(date), localization);
    EncodeDistinct(args);
    CoinPathRoundTrip(id, "/history");
    Request(CoinPath(id, "/history"), Some(Encode(args)))
  }

  /** The date is sent first and parses back to the same calendar date;
      the localization follows exactly when given. */
  lemma CoinsHistoryQuery(id: string, date: Date, localization: Option<string>)
    requires ValidDate(date)
    ensures var ps := CoinsHistory(id, date, localization).query.value;
      && Keys(ps) == ["date"] + OptKey("localization", localization.Some?)
      && Lookup(ps, "date").Some? && ParseDate(Lookup(ps, "date").value) == Some(date)
      && Lookup(ps, "localization") == localization
  {
    var args := CoinsHistoryArgs(FormatDate(date), localization);
    assert DistinctNames(args);
    EncodeLookup(args, 0);
    EncodeLookup(args, 1);
    DateRoundTrip(date);
  }

  function MarketChartArgs(vsCurrency: string, days: string, interval: Option<string>): seq<Arg>
  {
    [ ("vs_currency", Some(vsCurrency)), ("days", Some(days)), ("interval", interval) ]
  }

  /** `coins_marketchart`: endpoint "/coins/{id}/market_chart". */
  function CoinsMarketChart(id: string, vsCurrency: string, days: string, interval: Option<string>): (r: Request)
    ensures CoinIdOf(r.endpoint, "/market_chart") == Some(id)
    ensures r.query.Some? && DistinctKeys(r.query.value)
  {
    var args := MarketChartArgs(vsCurrency, days, interval);
    EncodeDistinct(args);
    CoinPathRoundTrip(id, "/market_chart");
    Request(CoinPath(id, "/market_chart"), Some(Encode(args)))
  }

  /** vs_currency and days always, the interval last and only when given. */
  lemma CoinsMarketChartQuery(id: string, vsCurrency: string, days: string, interval: Option<string>)
    ensures var ps := CoinsMarketChart(id, vsCurrency, days, interval).query.value;
      && Keys(ps) == ["vs_currency", "days"] + OptKey("interval", interval.Some?)
      && Lookup(ps, "vs_currency") == Some(vsCurrency)
      && Lookup(ps, "days") == Some(days)
      && Lookup(ps, "interval") == interval
  {
    var args := MarketChartArgs(vsCurrency, days, interval);
    RequiredThenOptional(args, 2);
    assert args[2..] == [("interval", interval)];
    assert DistinctNames(args);
    EncodeLookup(args, 0);
    EncodeLookup(args, 1);
    EncodeLookup(args, 2);
  }

  /** `coins_marketchart_range`: endpoint "/coins/{id}/market_chart/range"
      and the three pairs vs_currency, from, to. */
  function CoinsMarketChartRange(id: string, vsCurrency: string, from: string, to: string): (r: Request)
    ensures CoinIdOf(r.endpoint, "/market_chart/range") == Some(id)
    ensures r.query.Some? && Keys(r.query.value) == ["vs_currency", "from", "to"]
    ensures Lookup(r.query.value, "vs_currency") == Some(vsCurrency)
    ensures Lookup(r.query.value, "from") == Some(from)
    ensures Lookup(r.query.value, "to") == Some(to)
  {
    var args := [("vs_currency", Some(vsCurrency)), ("from", Some(from)), ("to", Some(to))];
    PresentNamesAll(args);
    assert DistinctNames(args);
    EncodeLookup(args, 0);
    EncodeLookup(args, 1);
    EncodeLookup(args, 2);
    CoinPathRoundTrip(id, "/market_chart/range");
    Request(CoinPath(id, "/market_chart/range"), Some(Encode(args)))
  }

  /** `coins_ohlc`: endpoint "/coins/{id}/ohlc" and the two pairs
      vs_currency, days. */
  function CoinsOhlc(id: string, vsCurrency: string, days: string): (r: Request)
    ensures CoinIdOf(r.endpoint, "/ohlc") == Some(id)
    ensures r.query.Some? && Keys(r.query.value) == ["vs_currency", "days"]
    ensures Lookup(r.query.value, "vs_currency") == Some(vsCurrency)
    ensures Lookup(r.query.value, "days") == Some(days)
  {
    var args := [("vs_currency", Some(vsCurrency)), ("days", Some(days))];
    PresentNamesAll(args);
    assert DistinctNames(args);
    EncodeLookup(args, 0);
    EncodeLookup(args, 1);
    CoinPathRoundTrip(id, "/ohlc");
    Request(CoinPath(id, "/ohlc"), Some(Encode(args)))
  }

  // ---------------------------------------------------------------------
  // Endpoints without a per-coin id
  // ---------------------------------------------------------------------

  /** `assetplatforms`: always sends a query, empty when no filter is given
      and the single pair filter=value otherwise. */
  function AssetPlatforms(filter: Option<string>): (r: Request)
    ensures r.endpoint == "/asset_platforms" && r.query.Some?
    ensures Keys(r.query.value) == OptKey("filter", filter.Some?)
    ensures Lookup(r.query.value, "filter") == filter
  {
    var args := [("filter", filter)];
    EncodeLookup(args, 0);
    Request("/asset_platforms", Some(Encode(args)))
  }

  /** `exchangerates`: no query at all; with the default client the full
      URL is the base followed by "/exchange_rates". */
  function ExchangeRates(): (r: Request)
    ensures r.endpoint == "/exchange_rates" && r.query.None?
    ensures RequestUrl(Default(), r.endpoint) == "https://api.coingecko.com/api/v3/exchange_rates"
  {
    Request("/exchange_rates", None)
  }

  /** `global`: no query at all; with the default client the full URL is
      the base followed by "/global". */
  function Global(): (r: Request)
    ensures r.endpoint == "/global" && r.query.None?
    ensures RequestUrl(Default(), r.endpoint) == "https://api.coingecko.com/api/v3/global"
  {
    Request("/global", None)
  }
}
