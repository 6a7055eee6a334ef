/** The client object and its one request pipeline, `send_gecko_request`:
    the request URL is the configured base followed by the endpoint, the
    GET is handed to the transport, an error status is reported before any
    decoding, and a success body is decoded into the target type. The
    transport (reqwest) and the decoder (serde) are parameters: the model
    says what the pipeline does with their answers, not how they work. */
module Client {
  import opened Optional
  import opened Query

  /** The client: the reqwest handle is left out, the base URL is kept
      verbatim (no trailing-slash normalisation happens anywhere). */
  datatype GeckoClient = GeckoClient(apiUrl: string)

  const DefaultApiUrl: string := "https://api.coingecko.com/api/v3"

  /** `GeckoClient::new` and `new_with_custom_client`: the URL is stored as given. */
  function New(apiUrl: string): (c: GeckoClient)
    ensures RequestUrl(c, "") == apiUrl
  {
    GeckoClient(apiUrl)
  }

  /** `GeckoClient::default`. */
  function Default(): (c: GeckoClient)
    ensures RequestUrl(c, "/global") == "https://api.coingecko.com/api/v3/global"
  {
    New(DefaultApiUrl)
  }

  /** What a facade method hands to the pipeline: an endpoint path and,
      optionally, the query pairs. */
  datatype Request = Request(endpoint: string, query: Option<seq<Param>>)

  /** The GET request the transport is asked to perform. */
  datatype HttpGet = HttpGet(url: string, query: Option<seq<Param>>)

  /** What the transport reports back. `RequestFailed` stands for every
      reqwest error before a status is known (building the request,
      connecting, timing out); `body` is `None` when reading the body text
      failed. */
  datatype Exchange = RequestFailed | Response(status: int, body: Option<string>)

  /** The answer of the JSON decoder for the target type. */
  datatype Decoded<D> = Decoded(value: D) | DecodeFailed(message: string)

  /** The reqwest errors the pipeline can return. `DecodeError` is only
      produced by the corrected pipeline `SendGeckoRequestChecked`. */
  datatype ClientError =
    | TransportError
    | StatusError(status: int)
    | BodyError
    | DecodeError(message: string)

  /** How a call ends: a value, an error returned to the caller, or a
      panic that aborts the calling task. */
  datatype Outcome<D> = Ok(value: D) | Err(error: ClientError) | Panic(message: string)

  /** `error_for_status_ref` fails exactly for client (4xx) and server (5xx) errors. */
  predicate IsErrorStatus(status: int)
  {
    400 <= status <= 599
  }

  /** `format!("{}{}", api_url, endpoint)`: nothing is inserted, removed or
      merged between the two parts. */
  function RequestUrl(client: GeckoClient, endpoint: string): (url: string)
    ensures |url| == |client.apiUrl| + |endpoint|
    ensures url[..|client.apiUrl|] == client.apiUrl
    ensures url[|client.apiUrl|..] == endpoint
  {
    client.apiUrl + endpoint
  }

  /** The classification steps after the transport has answered.
      `debugLog` says whether the `debug!` level of the `log` facade is
      enabled: only then is the body of an error response read (for the log
      line), so only then can an unreadable body turn a status error into a
      body error. */
  function Classify<D>(exchange: Exchange, debugLog: bool, decode: string -> Decoded<D>): (r: Outcome<D>)
    ensures exchange.RequestFailed? ==> r == Err(TransportError)
    ensures exchange.Response? && IsErrorStatus(exchange.status) ==>
              r == (if debugLog && exchange.body.None? then Err(BodyError) else Err(StatusError(exchange.status)))
    ensures exchange.Response? && !IsErrorStatus(exchange.status) && exchange.body.None? ==>
              r == Err(BodyError)
    ensures r.Ok? <==>
              && exchange.Response? && !IsErrorStatus(exchange.status)
              && exchange.body.Some? && decode(exchange.body.value).Decoded?
    ensures r.Ok? ==> r.value == decode(exchange.body.value).value
    ensures r.Panic? <==>
              && exchange.Response? && !IsErrorStatus(exchange.status)
              && exchange.body.Some? && decode(exchange.body.value).DecodeFailed?
    ensures r.Panic? ==> r.message == decode(exchange.body.value).message
    ensures !(r.Err? && r.error.DecodeError?)
  {
    match exchange
    case RequestFailed => Err(TransportError)
    case Response(status, body) =>
      if IsErrorStatus(status) then
        if debugLog && body.None? then Err(BodyError) else Err(StatusError(status))
      else if body.None? then Err(BodyError)
      else match decode(body.value)
        case Decoded(v) => Ok(v)
        case DecodeFailed(msg) => Panic(msg)
  }

  /** `send_gecko_request`, as written: the transport is asked for exactly
      the base URL followed by the endpoint, with the query unchanged, and
      its answer is classified; a decode failure panics. */
  function SendGeckoRequest<D>(client: GeckoClient, endpoint: string, query: Option<seq<Param>>,
                               debugLog: bool, transport: HttpGet -> Exchange,
                               decode: string -> Decoded<D>): (r: Outcome<D>)
    ensures var ex := transport(HttpGet(RequestUrl(client, endpoint), query));
      && (ex.RequestFailed? ==> r == Err(TransportError))
      && (ex.Response? && IsErrorStatus(ex.status) ==>
            r == (if debugLog && ex.body.None? then Err(BodyError) else Err(StatusError(ex.status))))
      && (ex.Response? && !IsErrorStatus(ex.status) && ex.body.None? ==> r == Err(BodyError))
      && (ex.Response? && !IsErrorStatus(ex.status) && ex.body.Some? ==>
            r == (match decode(ex.body.value)
                  case Decoded(v) => Ok(v)
                  case DecodeFailed(msg) => Panic(msg)))
  {
    Classify(transport(HttpGet(client.apiUrl + endpoint, query)), debugLog, decode)
  }

  /** The base URL and the endpoint matter only through their concatenation:
      a trailing slash on the base and a leading slash on the endpoint are
      both kept, never merged. */
  lemma UrlIsConcatenation<D>(c1: GeckoClient, e1: string, c2: GeckoClient, e2: string,
                              query: Option<seq<Param>>, debugLog: bool,
                              transport: HttpGet -> Exchange, decode: string -> Decoded<D>)
    requires c1.apiUrl + e1 == c2.apiUrl + e2
    ensures SendGeckoRequest(c1, e1, query, debugLog, transport, decode)
         == SendGeckoRequest(c2, e2, query, debugLog, transport, decode)
    ensures RequestUrl(GeckoClient("https://h/"), "/x") == "https://h//x"
  {
  }

  /** On a 4xx/5xx status the decoder is never consulted: any two decoders
      give the same outcome, and it is an error, never a value or a panic. */
  lemma ErrorStatusSkipsDecoder<D>(client: GeckoClient, endpoint: string, query: Option<seq<Param>>,
                                   debugLog: bool, transport: HttpGet -> Exchange,
                                   decode1: string -> Decoded<D>, decode2: string -> Decoded<D>)
    requires transport(HttpGet(RequestUrl(client, endpoint), query)).Response?
    requires IsErrorStatus(transport(HttpGet(RequestUrl(client, endpoint), query)).status)
    ensures SendGeckoRequest(client, endpoint, query, debugLog, transport, decode1)
         == SendGeckoRequest(client, endpoint, query, debugLog, transport, decode2)
    ensures SendGeckoRequest(client, endpoint, query, debugLog, transport, decode1).Err?
  {
  }

  /** A rate-limited call (status 429) reports the status whether or not
      debug logging is on, as long as the body can be read; with logging off
      the body is never read and the status is reported in any case. */
  lemma RateLimitIsStatusError<D>(client: GeckoClient, endpoint: string, query: Option<seq<Param>>,
                                  debugLog: bool, transport: HttpGet -> Exchange,
                                  decode: string -> Decoded<D>, body: Option<string>)
    requires transport(HttpGet(RequestUrl(client, endpoint), query)) == Response(429, body)
    requires body.Some? || !debugLog
    ensures SendGeckoRequest(client, endpoint, query, debugLog, transport, decode) == Err(StatusError(429))
  {
  }

  /** With a success status and a readable body, the call either returns the
      decoded value or panics with the decoder's message; a decode failure
      never comes back as an `Err`. */
  lemma SuccessStatusDecodesOrPanics<D>(client: GeckoClient, endpoint: string, query: Option<seq<Param>>,
                                        debugLog: bool, transport: HttpGet -> Exchange,
                                        decode: string -> Decoded<D>, status: int, body: string)
    requires transport(HttpGet(RequestUrl(client, endpoint), query)) == Response(status, Some(body))
    requires !IsErrorStatus(status)
    ensures decode(body).Decoded? ==>
              SendGeckoRequest(client, endpoint, query, debugLog, transport, decode) == Ok(decode(body).value)
    ensures decode(body).DecodeFailed? ==>
              SendGeckoRequest(client, endpoint, query, debugLog, transport, decode) == Panic(decode(body).message)
    ensures !SendGeckoRequest(client, endpoint, query, debugLog, transport, decode).Err?
  {
  }

  // ---------------------------------------------------------------------
  // The corrected pipeline: a decode failure is returned, not a panic.
  // ---------------------------------------------------------------------

  /** Turns a panic into the decode error it stands for. */
  function RecoverPanic<D>(o: Outcome<D>): Outcome<D>
  {
    match o
    case Panic(msg) => Err(DecodeError(msg))
    case _ => o
  }

  /** `send_gecko_request` with the decode failure returned as an error. */
  function SendGeckoRequestChecked<D>(client: GeckoClient, endpoint: string, query: Option<seq<Param>>,
                                      debugLog: bool, transport: HttpGet -> Exchange,
                                      decode: string -> Decoded<D>): (r: Outcome<D>)
    ensures !r.Panic?
    ensures r.Ok? <==> SendGeckoRequest(client, endpoint, query, debugLog, transport, decode).Ok?
    ensures SendGeckoRequest(client, endpoint, query, debugLog, transport, decode).Panic? <==> r.Err? && r.error.DecodeError?
    ensures !SendGeckoRequest(client, endpoint, query, debugLog, transport, decode).Panic? ==>
              r == SendGeckoRequest(client, endpoint, query, debugLog, transport, decode)
  {
    RecoverPanic(SendGeckoRequest(client, endpoint, query, debugLog, transport, decode))
  }

  /** The corrected pipeline differs from the written one only where that
      one panics, and there it returns the decoder's message as an error. */
  lemma CheckedReportsDecodeFailure<D>(client: GeckoClient, endpoint: string, query: Option<seq<Param>>,
                                       debugLog: bool, transport: HttpGet -> Exchange,
                                       decode: string -> Decoded<D>, status: int, body: string)
    requires transport(HttpGet(RequestUrl(client, endpoint), query)) == Response(status, Some(body))
    requires !IsErrorStatus(status) && decode(body).DecodeFailed?
    ensures SendGeckoRequest(client, endpoint, query, debugLog, transport, decode) == Panic(decode(body).message)
    ensures SendGeckoRequestChecked(client, endpoint, query, debugLog, transport, decode)
         == Err(DecodeError(decode(body).message))
  {
  }
}
