# rustgecko request layer, in Dafny

This project models the request-building core of `rustgecko`, a Rust client
for the CoinGecko REST API:

- the client object and its one pipeline, `send_gecko_request`. The URL is
  the stored base URL with the endpoint appended. An error status is reported
  before any decoding. A decode failure panics.
- the query-option enums (`TrustOrder`, `MarketOrder`, `PriceChange`) and the
  wire tokens they map to, with the duplicate copies in `responses.rs`.
- the date format `dd-mm-yyyy` used for historical snapshots.
- every facade method with a body. Each one fixes an endpoint path and turns
  its typed arguments into an ordered list of query pairs.

Files and modules:

| file | module | contents |
|---|---|---|
| optional.dfy | `Optional` | `Option` |
| text.dfy | `Text` | `bool`/`i64` rendering and parsing, `join`, counting, splitting |
| query.dfy | `Query` | query pairs, `Lookup`, and `Encode`, which drops absent optional arguments |
| dates.dfy | `Dates` | calendar dates, `FormatDate`/`ParseDate` for `[day]-[month]-[year]` |
| queryparams.dfy | `QueryParams` | the three option enums and their tokens |
| responses.dfy | `Responses` | the duplicate enums of the response model |
| client.dfy | `Client` | `GeckoClient`, the request URL, the pipeline's outcome classification |
| endpoints.dfy | `Endpoints` | the facade methods as `Request` values (endpoint plus optional query) |

The HTTP transport, the JSON decoder and whether `debug!` logging is
enabled are parameters of `Client.SendGeckoRequest`. The model says what the pipeline does with their
answers, not how they work.

The model follows the code as written:

- The base URL is stored and used verbatim. There is no trailing-slash
  normalisation: `"https://h/"` with `"/x"` gives `"https://h//x"`.
- Id and currency lists are joined with the three characters `"%2C"`. Price
  windows are joined with a literal `","`.
- `coins_markets` pushes `price_change` before `page`.
- A body that does not decode makes `send_gecko_request` panic, rather than
  return an error. It is modelled as written (`Client.SendGeckoRequest`), next
  to a corrected variant (see Findings).
- The body of an error response is read only inside a `debug!` log call,
  which evaluates its arguments only when debug logging is enabled. So an
  unreadable body turns a 4xx/5xx into a body error only with debug logging
  on; otherwise the status error is returned.
- Price windows are sent with the written `get_string` tokens, including
  "14d" for `Days30` and "30d" for `Days200` (see Findings).
- `simple_tokenprice` targets `/simple/price` and sends the platform id under
  the name `id`.

The facades call `to_string()` on the option enums. No `Display`
implementation for them is part of this model, so the model takes the wire
token to be the one `get_string` returns.

## Model

| member | source | states |
|---|---|---|
| Client.New | src/client.rs:36-57 | The base URL is stored as given: the request URL for the empty endpoint is exactly that URL. |
| Client.Default | src/client.rs:21-25 | The default client talks to `https://api.coingecko.com/api/v3`; `/global` is appended to it unchanged. |
| Client.RequestUrl | src/client.rs:83 | The request URL is the base followed by the endpoint: its prefix is the base, its suffix the endpoint, its length the sum of both. |
| Client.UrlIsConcatenation | src/client.rs:83 | Base and endpoint matter only through their concatenation; a trailing slash and a leading slash are both kept. |
| Client.Classify | src/client.rs:91-112 | A transport failure is a transport error. A 4xx/5xx status is the status error, except that it is a body error when debug logging is on and the body cannot be read. A success status with an unreadable body is a body error. A success status returns the decoded value exactly when the body is readable and decodes, and panics with the decoder's message exactly when it does not decode. A decode failure is never an `Err`. |
| Client.SendGeckoRequest | src/client.rs:78-114 | The transport is asked for exactly the base URL followed by the endpoint, with the query unchanged. Its answer is turned into a transport error, a status error, a body error, the decoded value, or a panic with the decoder's message, case by case as in `Classify`. |
| Client.ErrorStatusSkipsDecoder | src/client.rs:95-99 | On an error status the decoder is never consulted: any two decoders give the same outcome, and it is an error. |
| Client.RateLimitIsStatusError | src/client.rs:95-99 | A 429 answer is returned as the status error 429 when its body is readable, and whatever the body when debug logging is off. |
| Client.SuccessStatusDecodesOrPanics | src/client.rs:101-112 | With a success status and a readable body the call returns the decoded value or panics with the decoder's message. It never returns an error. |
| Client.SendGeckoRequestChecked | src/client.rs:105-111 | The corrected pipeline never panics. It returns a decode error exactly where the written one panics, and everywhere else exactly what the written one returns. |
| Client.CheckedReportsDecodeFailure | src/client.rs:105-111 | Where the written pipeline panics on an undecodable body, the corrected one returns that message as a decode error. |
| QueryParams.TrustOrderTokens | src/model/queryparams.rs:7-14 | The three ticker-order tokens are distinct, each parses back to its ordering, and a parsed token is the token of what it parses to. |
| QueryParams.MarketOrderTokens | src/model/queryparams.rs:28-40 | The eight market-order tokens are pairwise distinct, each parses back to its ordering, and parsing accepts only those tokens. |
| QueryParams.PriceChangeReencode | src/model/queryparams.rs:53-64 | Every window token has at least two characters and no comma. Every token parses, and parsing then re-encoding gives the same token. |
| QueryParams.PriceChangeCollision | src/model/queryparams.rs:53-64 | As written, `Days14` and `Days30` both map to "14d" and `Days200` maps to "30d". Those two are the only variants sharing a token. |
| QueryParams.PriceChangeNamedTokens | src/model/queryparams.rs:56-61 | The 1h, 24h, 7d and 1y windows are sent as "1h", "24h", "7d" and "1y". |
| QueryParams.IntendedPriceChangeInjective | src/model/queryparams.rs:43-64 | With each window sent as the period it is named after, no two windows share a token. That mapping differs from the written one exactly in `Days30` and `Days200`. |
| Responses.PriceChangeString | src/model/responses.rs:36-48 | The response-model copy of the windows maps each variant to the same token as the query-option copy. |
| Responses.PriceChangeAsRef | src/model/responses.rs:50-54 | `as_ref` yields the same token as `get_string`. |
| Responses.MarketOrderString | src/model/responses.rs:67-80 | The copy of the market orderings maps each variant to the same token as the query-option copy. |
| Responses.MarketOrderAsRef | src/model/responses.rs:82-86 | `as_ref` yields the same token as `get_string`. |
| Responses.TrustOrdersString | src/model/responses.rs:94-102 | `TrustOrders` maps each variant to the same token as `TrustOrder`. |
| Responses.CopiesCorrespond | src/model/responses.rs:26-102 | The duplicate enums correspond one to one with the query-option enums. |
| Dates.FormatDate | src/client.rs:13 | A valid date renders as ten characters: two-digit day, '-', two-digit month, '-', four-digit year. The digits read back as the day, month and year. |
| Dates.DateRoundTrip | src/client.rs:330 | Parsing the rendering of a valid date gives back that date. |
| Dates.DateCanonical | src/client.rs:13 | Every string that parses is the rendering of its date: each date has exactly one spelling. |
| Dates.DocumentedExample | src/client.rs:322 | 30 December 2017 renders as "30-12-2017", the dd-mm-yyyy example the documentation gives. |
| Dates.ZeroPaddedExample | src/client.rs:13 | The `[day]` component is two digits wide: 1 October 2022 renders as "01-10-2022", the day zero-padded. |
| Text.BoolRoundTrip | src/client.rs:237 | A flag renders as "true" or "false" and parses back. Only those two strings parse. |
| Text.IntDecimalRoundTrip | src/client.rs:252-254 | An integer's decimal rendering parses back to it. Every string that parses is the rendering of what it parses to. |
| Text.JoinCount | src/client.rs:162-163 | Joining N strings inserts exactly N - 1 separators. |
| Text.SplitJoin | src/client.rs:243-249 | Splitting at a character undoes joining with it, provided no element contains that character. |
| Text.JoinOnChar | src/client.rs:243-249 | Joining non-empty, separator-free strings with a one-character separator gives N - 1 separators, none at either end, and splits back into the strings. |
| Query.Encode | src/client.rs:233-254 | The pairs sent are named by the present arguments, in call order. There are never more pairs than arguments. |
| Query.EncodeLookup | src/client.rs:233-254 | With distinct argument names, looking up a name gives the argument's value when present and nothing when absent. |
| Query.EncodeDistinct | src/client.rs:233-254 | Distinct argument names give distinct pair names. |
| Query.EncodeAllPresent | src/client.rs:159-172 | When every argument is present, the i-th pair is the i-th argument with its value. |
| Query.RequiredThenOptional | src/client.rs:233-254 | The required names come first, all of them, followed by the present optional names. |
| Endpoints.CoinPathRoundTrip | src/client.rs:283 | The coin id can be read back out of "/coins/{id}{suffix}", so distinct ids give distinct endpoints. |
| Endpoints.SimpleSupportedVsCurrencies | src/client.rs:125-128 | `/simple/supported_vs_currencies` is called with no query. |
| Endpoints.SimplePrice | src/client.rs:159-172 | `/simple/price` gets seven distinct pairs in a fixed order. The 24h change comes before the 24h volume. |
| Endpoints.SimplePriceValues | src/client.rs:159-172 | Each argument lands under its own name. The two 24h flags are not swapped, although they are passed in the other order. |
| Endpoints.SimplePriceShort | src/client.rs:130-137 | The short form sets all four flags to "true" and precision to "max". |
| Endpoints.SimpleTokenPrice | src/client.rs:189-205 | As written, the token price goes to `/simple/price` with eight distinct pairs: the platform under `id`, the contract addresses last. |
| Endpoints.SimpleTokenPriceValues | src/client.rs:189-205 | All eight values land under their own names: the platform id, the currencies and contract addresses joined with "%2C", the four flags as "true"/"false" (24h change and 24h volume not swapped), and the precision as given. |
| Endpoints.CoinsList | src/client.rs:209-213 | `/coins/list` sends the one pair include_platform=true. |
| Endpoints.CoinsMarkets | src/client.rs:224-258 | `/coins/markets` is called with pairs whose names are distinct. |
| Endpoints.CoinsMarketsKeys | src/client.rs:233-254 | vs_currency, order and sparkline always come first. ids, price_change and page follow in that order, each present exactly when supplied. The count is 3 plus one per supplied option. |
| Endpoints.CoinsMarketsValues | src/client.rs:233-254 | The currency is sent as given, the ordering as its token and the flag as "true"/"false". The ids are joined with "%2C". The windows are sent as their written `get_string` tokens joined with ",". The page is in decimal. |
| Endpoints.PriceChangeTokens | src/client.rs:244-248 | One token per window, in order, each the written `get_string` token of that window. |
| Endpoints.WrittenTokensAgree | src/client.rs:243-249 | The tokens sent equal the corrected tokens exactly when the list has neither the 30-day nor the 200-day window. |
| Endpoints.PriceChangeValueCollision | src/client.rs:243-249 | As written, `[Days30]` sends "14d", the same value as `[Days14]`, and `[Days200]` sends "30d". |
| Endpoints.PriceChangeValueSplits | src/client.rs:243-249 | N windows give a value with exactly N - 1 commas, none at either end, that splits back into the N written tokens. |
| Endpoints.IdsValueSeparators | src/client.rs:239-241 | N ids joined with "%2C" carry exactly N - 1 '%' characters more than the ids themselves, and the value starts with the first id. |
| Endpoints.WindowsExample | src/client.rs:243-249 | The windows 7 days and 1 year are sent as "7d,1y". |
| Endpoints.MarketSnapshotKeys | src/client.rs:233-254 | Without ids, with windows and a page: the five names vs_currency, order, sparkline, price_change, page, in that order. |
| Endpoints.MarketSnapshotValues | src/client.rs:233-254 | With ordering market-cap-descending, windows 7d and 1y and page 1, the request sends "market_cap_desc", "false", "7d,1y" and "1", and no ids. |
| Endpoints.Coins | src/client.rs:283-292 | "/coins/{id}" (the id recoverable) gets the six flags in a fixed order, under distinct names. |
| Endpoints.CoinsValues | src/client.rs:283-292 | Each of the six flags lands under its own name. |
| Endpoints.CoinsShort | src/client.rs:261-263 | The short form sends six pairs, every value "true". |
| Endpoints.CoinsTickers | src/client.rs:303-315 | "/coins/{id}/tickers", the id recoverable, is called with distinct pair names. |
| Endpoints.CoinsTickersKeys | src/client.rs:305-313 | include_exchange_logo, page and order are always sent. exchange_ids is sent last, exactly when given. |
| Endpoints.CoinsTickersValues | src/client.rs:305-313 | The page reads back as the same `i64` and the order token as the same ordering. The exchange ids are joined with "%2C". |
| Endpoints.CoinsHistory | src/client.rs:324-338 | "/coins/{id}/history", the id recoverable, is called with distinct pair names. |
| Endpoints.CoinsHistoryQuery | src/client.rs:330-335 | The date is sent first and parses back to the same date. The localization follows exactly when given. |
| Endpoints.CoinsMarketChart | src/client.rs:355-362 | "/coins/{id}/market_chart", the id recoverable, is called with distinct pair names. |
| Endpoints.CoinsMarketChartQuery | src/client.rs:356-360 | vs_currency and days are always sent, under their own names. interval is sent last, exactly when given. |
| Endpoints.CoinsMarketChartRange | src/client.rs:373-379 | "/coins/{id}/market_chart/range" gets vs_currency, from and to, in order, each under its own name. |
| Endpoints.CoinsOhlc | src/client.rs:394-397 | "/coins/{id}/ohlc" gets vs_currency and days, in order, each under its own name. |
| Endpoints.AssetPlatforms | src/client.rs:422-429 | `/asset_platforms` always sends a query. It is empty without a filter and the single pair filter=value with one. |
| Endpoints.ExchangeRates | src/client.rs:496-500 | `/exchange_rates` is called with no query; with the default client the URL is `https://api.coingecko.com/api/v3/exchange_rates`. |
| Endpoints.Global | src/client.rs:511-514 | `/global` is called with no query; with the default client the URL is `https://api.coingecko.com/api/v3/global`. |

## Left out

- Transport: the reqwest client, its gzip and header setup, `new_with_custom_client`'s HTTP client and async execution. Logging is reduced to whether `debug!` is enabled, which decides whether an error body is read. A transport failure is one abstract `RequestFailed`, and an unreadable body is `None`.
- JSON decoding with serde and the response structs: the decoder is a parameter, and a failure carries only its message.
- Percent-encoding by the query serializer. Pairs are modelled as the strings handed to it, so "%2C" is the three characters `%`, `2`, `C`.
- The `todo!()` stubs (categories, exchanges, indexes, derivatives, nfts, search, global_defi, contract endpoints and others) and the commented-out `contract`: they build no request.
- Dates.FormatDate: only years 0 to 9999 are modelled. Negative years and years beyond four digits are left out.
- Endpoints.CoinsHistory: requires a valid date in that range. The source's `unwrap()` on the formatting result is not modelled as a panic.
- Endpoints.AssetPlatforms: an empty query and no query are kept apart, but what the serializer puts on the wire for an empty list is not modelled.
- Endpoints.CoinPathRoundTrip: the id is read back from the path only when the suffix is known. An id containing '/' is not given any special treatment, just as in the source.
- The defaults mentioned in the `coins_markets` documentation (market_cap_desc ordering, page 1) are applied by the server, not the client. The model only omits the pair.

## Findings

| source | as written | input that shows it | evidently intended | confidence | as-written member | corrected member |
|---|---|---|---|---|---|---|
| src/model/queryparams.rs:59-60 | `Days30` is sent as "14d" and `Days200` as "30d" | `price_change = [Days30]` requests the 14-day change, the same as `[Days14]` | each window sent as the period it names ("30d", "200d") | high, not executed | Endpoints.PriceChangeValueCollision | QueryParams.IntendedPriceChangeInjective |
| src/client.rs:107-111 | an undecodable success body panics inside `send_gecko_request` | a 200 response whose body is not the expected JSON | the decode failure returned to the caller as an error | medium, not executed | Client.SuccessStatusDecodesOrPanics | Client.CheckedReportsDecodeFailure |

The same enums in `src/model/responses.rs:42-43` carry the same mapping
(`QueryParams.PriceChangeCollision`). The facades send the written tokens,
because that is what goes on the wire. `Endpoints.IntendedPriceChangeTokens`
holds the corrected tokens, and `Endpoints.WrittenTokensAgree` states exactly
when the two agree. The facades are request values. They are not tied to
either pipeline, so the written `Client.SendGeckoRequest` and the corrected
`Client.SendGeckoRequestChecked` both apply to them.
