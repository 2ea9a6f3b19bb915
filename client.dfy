/** The request dispatcher of src/client.rs: configuration and its builder,
    the admission check, URL resolution, the bounded retry on 429 with its
    backoff, rate-limit extraction, the error-message choice for failed
    responses and the three response envelopes.

    The network is an oracle: attempt `k` of a call (counting from 0) draws
    the `k`-th entry of `Network`, which holds the nonce and clock reading
    an OAuth header would use and what the server did with the request. */
module Client {
  import opened Wrappers
  import opened Text
  import opened JsonValues
  import opened Http
  import opened Credentials
  import opened Errors
  import Models

  // ---------------------------------------------------------------------
  // Configuration

  type Pos = n: nat | n >= 1 witness 1

  /** `RetryConfig`. The `f64` backoff factor is the exact ratio
      `factorNum / factorDen`; the base delay is in whole milliseconds. */
  datatype RetryConfig = RetryConfig(maxRetries: U32, baseDelayMs: nat, factorNum: nat, factorDen: Pos)

  /** `RetryConfig::default`: no retries, 2 s base delay, factor 2.7. */
  function DefaultRetry(): (r: RetryConfig)
    ensures r.maxRetries == 0 && r.baseDelayMs == 2000
    ensures r.factorNum * 10 == r.factorDen * 27
  {
    RetryConfig(0, 2000, 27, 10)
  }

  /** `ClientConfig` */
  datatype ClientConfig = ClientConfig(
    baseUrl: string, userAgent: string, outputFormat: OutputFormat, auth: Auth, retry: RetryConfig)

  /** `DiscogsClient`: the shared configuration and the transport's timeout. */
  datatype DiscogsClient = DiscogsClient(config: ClientConfig, timeoutMs: nat)

  const DEFAULT_BASE_URL := "https://api.discogs.com"
  const DEFAULT_TIMEOUT_MS := 30000

  /** The configuration `DiscogsClient::builder` starts from. */
  function DefaultConfig(userAgent: string): (c: ClientConfig)
    ensures c.baseUrl == "https://api.discogs.com" && c.userAgent == userAgent
    ensures c.outputFormat == DefaultOutputFormat() && c.auth == DefaultAuth()
    ensures Level(c.auth) == AuthLevel.None && c.retry == DefaultRetry()
  {
    ClientConfig(DEFAULT_BASE_URL, userAgent, OutputFormat.Discogs, Auth.None, DefaultRetry())
  }

  /** `DiscogsClientBuilder`: each setter overwrites one part of the
      configuration and nothing else. */
  class ClientBuilder {
    var config: ClientConfig
    var timeoutMs: nat

    /** `DiscogsClient::builder` */
    constructor (userAgent: string)
      ensures config == DefaultConfig(userAgent) && timeoutMs == 30000
    {
      config := DefaultConfig(userAgent);
      timeoutMs := DEFAULT_TIMEOUT_MS;
    }

    method SetBaseUrl(baseUrl: string)
      modifies this
      ensures config == old(config).(baseUrl := baseUrl) && timeoutMs == old(timeoutMs)
    {
      config := config.(baseUrl := baseUrl);
    }

    method SetAuth(auth: Auth)
      modifies this
      ensures config == old(config).(auth := auth) && timeoutMs == old(timeoutMs)
    {
      config := config.(auth := auth);
    }

    /** `user_token`: personal-token credentials, which act at the User tier. */
    method SetUserToken(token: string)
      modifies this
      ensures config == old(config).(auth := UserToken(token)) && timeoutMs == old(timeoutMs)
      ensures Level(config.auth) == AuthLevel.User
    {
      config := config.(auth := UserToken(token));
    }

    method SetOutputFormat(outputFormat: OutputFormat)
      modifies this
      ensures config == old(config).(outputFormat := outputFormat) && timeoutMs == old(timeoutMs)
    {
      config := config.(outputFormat := outputFormat);
    }

    method SetRetry(retry: RetryConfig)
      modifies this
      ensures config == old(config).(retry := retry) && timeoutMs == old(timeoutMs)
    {
      config := config.(retry := retry);
    }

    method SetTimeout(timeoutMs: nat)
      modifies this
      ensures config == old(config) && this.timeoutMs == timeoutMs
    {
      this.timeoutMs := timeoutMs;
    }

    /** `build`: the client holds the configuration as built. */
    method Build() returns (client: DiscogsClient)
      ensures client == DiscogsClient(config, timeoutMs)
    {
      client := DiscogsClient(config, timeoutMs);
    }
  }

  /** The user agent `with_default_user_agent` sends, for the crate version. */
  function DefaultUserAgent(version: string): (ua: string)
    ensures StartsWith(ua, "discogs-rs/") && |ua| > 11 + |version| && ua[11..11 + |version|] == version
    ensures ua[11 + |version|..] == " +https://github.com/your-org/discogs-rs"
  {
    "discogs-rs/" + version + " +https://github.com/your-org/discogs-rs"
  }

  /** `DiscogsClient::with_default_user_agent` */
  method WithDefaultUserAgent(version: string) returns (b: ClientBuilder)
    ensures fresh(b) && b.config == DefaultConfig(DefaultUserAgent(version)) && b.timeoutMs == 30000
  {
    b := new ClientBuilder(DefaultUserAgent(version));
  }

  /** `DiscogsClient::with_user_token` */
  method WithUserToken(userAgent: string, token: string) returns (client: DiscogsClient)
    ensures client.config == DefaultConfig(userAgent).(auth := UserToken(token))
    ensures client.timeoutMs == 30000
    ensures AuthLevelOf(client) == AuthLevel.User
  {
    var b := new ClientBuilder(userAgent);
    b.SetUserToken(token);
    client := b.Build();
  }

  /** `DiscogsClient::with_default_user_agent_and_user_token` */
  method WithDefaultUserAgentAndUserToken(version: string, token: string) returns (client: DiscogsClient)
    ensures client.config == DefaultConfig(DefaultUserAgent(version)).(auth := UserToken(token))
    ensures client.timeoutMs == 30000
    ensures AuthLevelOf(client) == AuthLevel.User
  {
    var b := WithDefaultUserAgent(version);
    b.SetUserToken(token);
    client := b.Build();
  }

  /** `DiscogsClient::auth_level` */
  function AuthLevelOf(client: DiscogsClient): (l: AuthLevel)
    ensures l == AuthLevel.None <==> client.config.auth.None?
  {
    Level(client.config.auth)
  }

  // ---------------------------------------------------------------------
  // Admission

  /** `ensure_auth`: the credentials must reach the tier the operation asks
      for. */
  function EnsureAuth(auth: Auth, required: AuthLevel): (r: Result<(), DiscogsError>)
    ensures r.Failure? <==> Below(Level(auth), required)
    ensures r.Failure? ==> r.error == AuthRequired(required, Level(auth))
  {
    var current := Level(auth);
    if Below(current, required) then Failure(AuthRequired(required, current)) else Success(())
  }

  /** Credentials admitted at a tier are admitted at every lower tier; user
      credentials are admitted everywhere and no credentials only where none
      are required. */
  lemma AdmissionIsMonotone(auth: Auth, lower: AuthLevel, higher: AuthLevel)
    requires !Below(higher, lower)
    ensures EnsureAuth(auth, higher).Success? ==> EnsureAuth(auth, lower).Success?
    ensures Level(auth) == AuthLevel.User ==> EnsureAuth(auth, higher).Success?
    ensures auth.None? ==> (EnsureAuth(auth, higher).Success? <==> higher == AuthLevel.None)
  {
  }

  // ---------------------------------------------------------------------
  // URLs

  /** `absolute_url`: a full `http://` or `https://` URL is used as given;
      anything else is appended to the base URL with its trailing slashes
      removed, behind a single `/` unless the path brings its own. */
  function AbsoluteUrl(baseUrl: string, path: string): (url: string)
    ensures StartsWith(path, "http://") || StartsWith(path, "https://") ==> url == path
  {
    if StartsWith(path, "http://") || StartsWith(path, "https://") then path
    else TrimTrailingSlashes(baseUrl) + (if StartsWith(path, "/") then path else "/" + path)
  }

  /** A relative path ends up exactly one slash behind the trimmed base. */
  lemma AbsoluteUrlJoinsWithOneSlash(baseUrl: string, path: string)
    requires !StartsWith(path, "http://") && !StartsWith(path, "https://")
    ensures var rest := if StartsWith(path, "/") then path[1..] else path;
      AbsoluteUrl(baseUrl, path) == TrimTrailingSlashes(baseUrl) + "/" + rest
  {
    if StartsWith(path, "/") {
      assert path == "/" + path[1..];
    }
  }

  /** Trailing slashes on the base URL make no difference. */
  lemma AbsoluteUrlIgnoresTrailingSlash(baseUrl: string, path: string)
    ensures AbsoluteUrl(baseUrl + "/", path) == AbsoluteUrl(baseUrl, path)
  {
    var b := baseUrl + "/";
    assert b[..|b| - 1] == baseUrl;
  }

  /** Resolving a resolved URL again changes nothing when the base is itself
      an absolute URL. */
  lemma AbsoluteUrlIdempotent(baseUrl: string, path: string)
    requires StartsWith(TrimTrailingSlashes(baseUrl), "https://")
    ensures AbsoluteUrl(baseUrl, AbsoluteUrl(baseUrl, path)) == AbsoluteUrl(baseUrl, path)
  {
    var url := AbsoluteUrl(baseUrl, path);
    if !(StartsWith(path, "http://") || StartsWith(path, "https://")) {
      var t := TrimTrailingSlashes(baseUrl);
      assert url[..8] == t[..8];
      assert StartsWith(url, "https://");
    }
  }

  // ---------------------------------------------------------------------
  // Backoff

  function Pow(b: nat, e: nat): (r: nat)
    ensures b >= 1 ==> r >= 1
  {
    if e == 0 then 1 else b * Pow(b, e - 1)
  }

  /** `f64::round` of the non-negative ratio `p / q`: to the nearest
      integer, halves away from zero. */
  function RoundHalfAway(p: nat, q: Pos): (r: nat)
    ensures 2 * q * r <= 2 * p + q && 2 * p < 2 * q * r + q
  {
    var r := (2 * p + q) / (2 * q);
    assert 2 * p + q == 2 * q * r + (2 * p + q) % (2 * q);
    r
  }

  /** `retry_delay`: the base delay times the factor to the power of the
      attempt, rounded, converted to `u64` (saturating) and floored at
      1 ms. */
  function RetryDelay(retry: RetryConfig, attempt: nat): (ms: nat)
    ensures 1 <= ms <= U64_MAX
  {
    var exact := RoundHalfAway(retry.baseDelayMs * Pow(retry.factorNum, attempt), Pow(retry.factorDen, attempt));
    var saturated := if exact > U64_MAX then U64_MAX else exact;
    if saturated < 1 then 1 else saturated
  }

  /** With a whole-number factor there is nothing to round. */
  lemma RetryDelayWholeFactor(retry: RetryConfig, attempt: nat)
    requires retry.factorDen == 1
    requires retry.baseDelayMs * Pow(retry.factorNum, attempt) <= U64_MAX
    ensures RetryDelay(retry, attempt) == if retry.baseDelayMs * Pow(retry.factorNum, attempt) == 0 then 1
                                          else retry.baseDelayMs * Pow(retry.factorNum, attempt)
  {
    var p := retry.baseDelayMs * Pow(retry.factorNum, attempt);
    assert Pow(1, attempt) == 1 by { PowOne(attempt); }
    assert (2 * p + 1) / 2 == p;
  }

  lemma {:induction false} PowOne(e: nat)
    ensures Pow(1, e) == 1
  {
    if e > 0 {
      PowOne(e - 1);
    }
  }

  /** Base 100 ms, factor 2: 100, 200 and 400 ms for the first three
      attempts. */
  lemma RetryDelayDoubling()
    ensures var retry := RetryConfig(3, 100, 2, 1);
      RetryDelay(retry, 0) == 100 && RetryDelay(retry, 1) == 200 && RetryDelay(retry, 2) == 400
  {
    var retry := RetryConfig(3, 100, 2, 1);
    RetryDelayWholeFactor(retry, 0);
    RetryDelayWholeFactor(retry, 1);
    RetryDelayWholeFactor(retry, 2);
  }

  /** The default configuration waits 2 s, then 5.4 s, then 14.58 s. */
  lemma DefaultRetryDelays()
    ensures RetryDelay(DefaultRetry(), 0) == 2000
    ensures RetryDelay(DefaultRetry(), 1) == 5400
    ensures RetryDelay(DefaultRetry(), 2) == 14580
  {
    assert Pow(27, 2) == 729 && Pow(10, 2) == 100;
  }

  /** A zero base delay still waits 1 ms. */
  lemma RetryDelayFloor(retry: RetryConfig, attempt: nat)
    requires retry.baseDelayMs == 0
    ensures RetryDelay(retry, attempt) == 1
  {
    var q := Pow(retry.factorDen, attempt);
    assert retry.baseDelayMs * Pow(retry.factorNum, attempt) == 0;
    assert q < 2 * q;
    assert RoundHalfAway(0, q) == q / (2 * q) == 0;
  }

  // ---------------------------------------------------------------------
  // Responses

  type Byte = b: int | 0 <= b < 256

  /** A response body: unreadable, or its bytes together with their reading
      as JSON (`None` when they are not JSON). */
  datatype Body = Unreadable | Payload(bytes: seq<Byte>, json: Option<Json>)

  datatype Response = Response(status: StatusCode, headers: seq<(string, string)>, body: Body)

  const RATE_LIMIT := "x-discogs-ratelimit"
  const RATE_LIMIT_USED := "x-discogs-ratelimit-used"
  const RATE_LIMIT_REMAINING := "x-discogs-ratelimit-remaining"

  /** A rate-limit header's value as a `u32`, if present and well formed. */
  function HeaderU32(headers: seq<(string, string)>, name: string): (r: Option<U32>)
    ensures r.Some? ==> HeaderValue(headers, name).Some? && ParseU32(HeaderValue(headers, name).value) == r
    ensures HeaderValue(headers, name).Some? ==> r == ParseU32(HeaderValue(headers, name).value)
  {
    var v := HeaderValue(headers, name);
    if v.Some? then ParseU32(v.value) else Option.None
  }

  /** `parse_rate_limit`: all three headers or nothing. */
  function ParseRateLimit(headers: seq<(string, string)>): (r: Option<Models.RateLimit>)
    ensures r.Some? <==> HeaderU32(headers, RATE_LIMIT).Some? && HeaderU32(headers, RATE_LIMIT_USED).Some?
                         && HeaderU32(headers, RATE_LIMIT_REMAINING).Some?
    ensures r.Some? ==> r.value == Models.RateLimit(HeaderU32(headers, RATE_LIMIT).value,
                                                    HeaderU32(headers, RATE_LIMIT_USED).value,
                                                    HeaderU32(headers, RATE_LIMIT_REMAINING).value)
  {
    var limit := HeaderU32(headers, RATE_LIMIT);
    var used := HeaderU32(headers, RATE_LIMIT_USED);
    var remaining := HeaderU32(headers, RATE_LIMIT_REMAINING);
    if limit.Some? && used.Some? && remaining.Some? then
      Some(Models.RateLimit(limit.value, used.value, remaining.value))
    else Option.None
  }

  /** The three headers a server sends for a snapshot, in decimal. */
  function RateLimitHeaders(rl: Models.RateLimit): seq<(string, string)> {
    [(RATE_LIMIT, DecimalString(rl.limit)), (RATE_LIMIT_USED, DecimalString(rl.used)),
     (RATE_LIMIT_REMAINING, DecimalString(rl.remaining))]
  }

  lemma RateLimitNamesDistinct()
    ensures RATE_LIMIT != RATE_LIMIT_USED && RATE_LIMIT != RATE_LIMIT_REMAINING
    ensures RATE_LIMIT_USED != RATE_LIMIT_REMAINING
  {
    assert |RATE_LIMIT| != |RATE_LIMIT_USED| && |RATE_LIMIT| != |RATE_LIMIT_REMAINING|;
    assert |RATE_LIMIT_USED| != |RATE_LIMIT_REMAINING|;
  }

  /** The first three headers are found under their own names. */
  lemma ThreeHeaders(n0: string, v0: string, n1: string, v1: string, n2: string, v2: string,
                     others: seq<(string, string)>)
    requires n0 != n1 && n0 != n2 && n1 != n2
    ensures var h := [(n0, v0), (n1, v1), (n2, v2)] + others;
      HeaderValue(h, n0) == Some(v0) && HeaderValue(h, n1) == Some(v1) && HeaderValue(h, n2) == Some(v2)
  {
    var h := [(n0, v0), (n1, v1), (n2, v2)] + others;
    var t1 := h[1..];
    var t2 := t1[1..];
    assert t1 == [(n1, v1), (n2, v2)] + others;
    assert t2 == [(n2, v2)] + others;
    assert HeaderValue(t2, n2) == Some(v2);
    assert HeaderValue(t1, n2) == HeaderValue(t2, n2);
    assert HeaderValue(t1, n1) == Some(v1);
    assert HeaderValue(h, n2) == HeaderValue(t1, n2);
    assert HeaderValue(h, n1) == HeaderValue(t1, n1);
  }

  /** A snapshot sent in the three headers, followed by any other headers, is
      read back exactly. */
  lemma RateLimitRoundTrip(rl: Models.RateLimit, others: seq<(string, string)>)
    ensures ParseRateLimit(RateLimitHeaders(rl) + others) == Some(rl)
  {
    RateLimitNamesDistinct();
    ThreeHeaders(RATE_LIMIT, DecimalString(rl.limit), RATE_LIMIT_USED, DecimalString(rl.used),
                 RATE_LIMIT_REMAINING, DecimalString(rl.remaining), others);
    ParseU32OfDecimal(rl.limit);
    ParseU32OfDecimal(rl.used);
    ParseU32OfDecimal(rl.remaining);
  }

  /** A missing header or one that is not a `u32` leaves no snapshot at all,
      whatever the other two say. */
  lemma RateLimitAllOrNothing(headers: seq<(string, string)>, name: string)
    requires name in {RATE_LIMIT, RATE_LIMIT_USED, RATE_LIMIT_REMAINING}
    requires HeaderU32(headers, name).None?
    ensures ParseRateLimit(headers).None?
  {
  }

  /** `http_error`: the status, and as message the string under `message` if
      the body is JSON with one, else the JSON itself rendered compactly,
      else `unknown error`. */
  function HttpError(status: StatusCode, body: Body): (e: DiscogsError)
    ensures e.Http? && e.status == status
    ensures (body.Unreadable? || body.json.None?) ==> e.message == "unknown error"
    ensures body.Payload? && body.json.Some? ==>
              var field := Get(body.json.value, "message");
              e.message == if field.Some? && field.value.Str? then field.value.s else Render(body.json.value)
  {
    var message :=
      if body.Unreadable? || body.json.None? then UNKNOWN_ERROR
      else
        var field := Get(body.json.value, "message");
        var text := if field.Some? then AsStr(field.value) else Option.None;
        if text.Some? then text.value else Render(body.json.value);
    Http(status, message)
  }

  // ---------------------------------------------------------------------
  // Sending

  /** One call of `send_with_retry`: method, path, the written query struct
      (its JSON members), the JSON body and the tier required. */
  datatype Call = Call(verb: Method, path: string, query: Option<seq<(string, Json)>>, body: Option<Json>,
                       required: AuthLevel)

  /** Which of `request_json`, `request_empty` and `request_bytes` an
      operation hands its call to. */
  datatype Envelope = JsonEnvelope | EmptyEnvelope | BytesEnvelope

  /** One operation of the API: the call it makes and how it reads the answer. */
  datatype Endpoint = Endpoint(call: Call, envelope: Envelope)

  /** What attempt `k` draws: the nonce and clock reading for an OAuth
      header, and the server's answer (or a transport failure). */
  datatype Outcome = TransportError | Received(response: Response)

  datatype Attempt = Attempt(nonce: string, timestamp: nat, outcome: Outcome)

  type Network = nat -> Attempt

  const JSON_CONTENT_TYPE := "application/json"

  /** The headers of one attempt, in the order they are attached. */
  function RequestHeaders(userAgent: string, accept: string, authorization: Option<string>, hasBody: bool): (h: seq<(string, string)>)
    ensures |h| == 2 + (if authorization.Some? then 1 else 0) + (if hasBody then 1 else 0)
    ensures h[0] == (USER_AGENT, userAgent) && h[1] == (ACCEPT, accept)
  {
    [(USER_AGENT, userAgent), (ACCEPT, accept)]
    + (if authorization.Some? then [(AUTHORIZATION, authorization.value)] else [])
    + (if hasBody then [(CONTENT_TYPE, JSON_CONTENT_TYPE)] else [])
  }

  lemma HeaderNamesDistinct()
    ensures USER_AGENT != ACCEPT && USER_AGENT != AUTHORIZATION && ACCEPT != AUTHORIZATION
    ensures AUTHORIZATION != CONTENT_TYPE
  {
    assert |USER_AGENT| != |ACCEPT| && |USER_AGENT| != |AUTHORIZATION| && |ACCEPT| != |AUTHORIZATION|;
    assert AUTHORIZATION[0] != CONTENT_TYPE[0];
  }

  /** Each header is found under its name; `authorization` is absent
      exactly when there are no credentials. */
  lemma RequestHeadersFound(userAgent: string, accept: string, authorization: Option<string>, hasBody: bool)
    ensures var h := RequestHeaders(userAgent, accept, authorization, hasBody);
      && HeaderValue(h, USER_AGENT) == Some(userAgent)
      && HeaderValue(h, ACCEPT) == Some(accept)
      && HeaderValue(h, AUTHORIZATION) == authorization
  {
    var h := RequestHeaders(userAgent, accept, authorization, hasBody);
    var tail := (if authorization.Some? then [(AUTHORIZATION, authorization.value)] else [])
                + (if hasBody then [(CONTENT_TYPE, JSON_CONTENT_TYPE)] else []);
    HeaderNamesDistinct();
    assert h[1..] == [(ACCEPT, accept)] + tail;
    assert h[1..][1..] == tail;
    if authorization.None? {
      if hasBody {
        assert tail == [(CONTENT_TYPE, JSON_CONTENT_TYPE)];
        assert HeaderValue(tail[1..], AUTHORIZATION).None?;
      } else {
        assert tail == [];
      }
    } else {
      assert tail[0] == (AUTHORIZATION, authorization.value);
    }
    assert HeaderValue(h[1..], AUTHORIZATION) == HeaderValue(tail, AUTHORIZATION);
  }

  /** The request one attempt sends: the user agent and `Accept` header,
      the `Authorization` header when there are credentials, the query in
      field order and the JSON body (which sets its content type). */
  function BuildRequest(config: ClientConfig, call: Call, nonce: string, timestamp: nat): (r: Request)
    ensures r.verb == call.verb && r.url == AbsoluteUrl(config.baseUrl, call.path) && r.body == call.body
    ensures r.query == if call.query.Some? then Models.QueryPairs(call.query.value) else []
  {
    var headers := RequestHeaders(config.userAgent, AcceptHeaderValue(config.outputFormat),
                                  AuthorizationHeader(config.auth, nonce, timestamp), call.body.Some?);
    Request.Request(call.verb, AbsoluteUrl(config.baseUrl, call.path), headers,
                    if call.query.Some? then Models.QueryPairs(call.query.value) else [], call.body)
  }

  /** Every request identifies the client, asks for the configured format
      and carries the credentials' header exactly when there are
      credentials. */
  lemma BuildRequestHeaders(config: ClientConfig, call: Call, nonce: string, timestamp: nat)
    ensures var h := BuildRequest(config, call, nonce, timestamp).headers;
      && HeaderValue(h, USER_AGENT) == Some(config.userAgent)
      && HeaderValue(h, ACCEPT) == Some(AcceptHeaderValue(config.outputFormat))
      && HeaderValue(h, AUTHORIZATION) == AuthorizationHeader(config.auth, nonce, timestamp)
  {
    RequestHeadersFound(config.userAgent, AcceptHeaderValue(config.outputFormat),
                        AuthorizationHeader(config.auth, nonce, timestamp), call.body.Some?);
  }

  /** What a call did: the requests sent in order, the delays slept between
      them, and the outcome. */
  datatype Dispatch = Dispatch(sent: seq<Request>, delays: seq<nat>, result: Result<Response, DiscogsError>)

  /** The control flow of the retry loop: how many times it went round
      after a 429, and the outcome. */
  datatype Loop = Loop(retries: nat, result: Result<Response, DiscogsError>)

  /** The loop of `send_with_retry` from attempt `attempt` on: send; on a 429
      with retries left, sleep and try again; a success status returns the
      response; anything else is an `Http` error. */
  function RetryFrom(retry: RetryConfig, network: Network, attempt: nat): (l: Loop)
    requires attempt <= retry.maxRetries
    ensures l.result.Failure? ==> l.result.error.Http? || l.result.error == DiscogsError.Request(Transport)
    decreases retry.maxRetries - attempt
  {
    match network(attempt).outcome
    case TransportError => Loop(0, Failure(DiscogsError.Request(Transport)))
    case Received(response) =>
      if response.status == TOO_MANY_REQUESTS && attempt < retry.maxRetries then
        var rest := RetryFrom(retry, network, attempt + 1);
        Loop(rest.retries + 1, rest.result)
      else if IsSuccess(response.status) then Loop(0, Success(response))
      else Loop(0, Failure(HttpError(response.status, response.body)))
  }

  /** The sleeps before the first `n` retries: delay `i` is the backoff for
      attempt `i`. */
  function Delays(retry: RetryConfig, n: nat): (r: seq<nat>)
    ensures |r| == n
    ensures forall i :: 0 <= i < n ==> r[i] == RetryDelay(retry, i)
  {
    if n == 0 then [] else Delays(retry, n - 1) + [RetryDelay(retry, n - 1)]
  }

  /** The first `n` requests: request `i` is built from attempt `i`'s draw
      of nonce and timestamp. */
  function Requests(config: ClientConfig, call: Call, network: Network, n: nat): (r: seq<Request>)
    ensures |r| == n
    ensures forall i :: 0 <= i < n ==> r[i] == BuildRequest(config, call, network(i).nonce, network(i).timestamp)
  {
    if n == 0 then [] else Requests(config, call, network, n - 1) + [BuildRequest(config, call, network(n - 1).nonce, network(n - 1).timestamp)]
  }

  /** `send_with_retry`: the admission check, then the loop from attempt 0,
      which sends one request more than it sleeps. */
  function Send(config: ClientConfig, call: Call, network: Network): (d: Dispatch)
    ensures d.result.Failure? && d.result.error.AuthRequired? ==> d.sent == [] && d.delays == []
  {
    match EnsureAuth(config.auth, call.required)
    case Failure(e) => Dispatch([], [], Failure(e))
    case Success(_) =>
      var l := RetryFrom(config.retry, network, 0);
      Dispatch(Requests(config, call, network, l.retries + 1), Delays(config.retry, l.retries), l.result)
  }

  /** `send_with_retry` as the loop it is. */
  method SendWithRetry(config: ClientConfig, call: Call, network: Network) returns (d: Dispatch)
    ensures d == Send(config, call, network)
  {
    var admitted := EnsureAuth(config.auth, call.required);
    if admitted.Failure? {
      return Dispatch([], [], Failure(admitted.error));
    }
    ghost var whole := RetryFrom(config.retry, network, 0);
    var attempt: nat := 0;
    var sent: seq<Request> := [];
    var delays: seq<nat> := [];
    while true
      invariant attempt <= config.retry.maxRetries
      invariant sent == Requests(config, call, network, attempt) && delays == Delays(config.retry, attempt)
      invariant var rest := RetryFrom(config.retry, network, attempt);
        whole == Loop(attempt + rest.retries, rest.result)
      decreases config.retry.maxRetries - attempt
    {
      var a := network(attempt);
      var request := BuildRequest(config, call, a.nonce, a.timestamp);
      sent := sent + [request];
      assert sent == Requests(config, call, network, attempt + 1);
      if a.outcome.TransportError? {
        assert RetryFrom(config.retry, network, attempt) == Loop(0, Failure(DiscogsError.Request(Transport)));
        return Dispatch(sent, delays, Failure(DiscogsError.Request(Transport)));
      }
      var response := a.outcome.response;
      if response.status == TOO_MANY_REQUESTS && attempt < config.retry.maxRetries {
        ghost var rest := RetryFrom(config.retry, network, attempt + 1);
        assert RetryFrom(config.retry, network, attempt) == Loop(rest.retries + 1, rest.result);
        var delay := RetryDelay(config.retry, attempt);
        delays := delays + [delay];
        assert delays == Delays(config.retry, attempt + 1);
        attempt := attempt + 1;
        continue;
      }
      if IsSuccess(response.status) {
        assert RetryFrom(config.retry, network, attempt) == Loop(0, Success(response));
        return Dispatch(sent, delays, Success(response));
      }
      assert RetryFrom(config.retry, network, attempt) == Loop(0, Failure(HttpError(response.status, response.body)));
      return Dispatch(sent, delays, Failure(HttpError(response.status, response.body)));
    }
  }

  // ---------------------------------------------------------------------
  // What the loop guarantees

  /** The loop sleeps at most once per retry left. */
  lemma {:induction false} RetryFromBound(retry: RetryConfig, network: Network, attempt: nat)
    requires attempt <= retry.maxRetries
    ensures RetryFrom(retry, network, attempt).retries <= retry.maxRetries - attempt
    decreases retry.maxRetries - attempt
  {
    var a := network(attempt);
    if a.outcome.Received? && a.outcome.response.status == TOO_MANY_REQUESTS && attempt < retry.maxRetries {
      RetryFromBound(retry, network, attempt + 1);
    }
  }

  /** At most `max_retries + 1` requests go out, and none when the
      credentials do not reach the required tier; exactly then the result is
      `AuthRequired`. */
  lemma SendBound(config: ClientConfig, call: Call, network: Network)
    ensures |Send(config, call, network).sent| <= config.retry.maxRetries + 1
    ensures |Send(config, call, network).sent| == |Send(config, call, network).delays| + 1 || Send(config, call, network).sent == []
    ensures forall i :: 0 <= i < |Send(config, call, network).delays| ==>
              var a := network(i);
              a.outcome.Received? && a.outcome.response.status == TOO_MANY_REQUESTS
    ensures Send(config, call, network).sent == [] <==> Below(Level(config.auth), call.required)
    ensures Below(Level(config.auth), call.required) ==>
              Send(config, call, network).result == Failure(AuthRequired(call.required, Level(config.auth)))
  {
    if !Below(Level(config.auth), call.required) {
      RetryFromBound(config.retry, network, 0);
      RetryFromRetriesOn429(config.retry, network, 0);
    }
  }

  /** The loop goes round only on a 429: every attempt before the last got
      one. */
  lemma {:induction false} RetryFromRetriesOn429(retry: RetryConfig, network: Network, attempt: nat)
    requires attempt <= retry.maxRetries
    ensures var l := RetryFrom(retry, network, attempt);
      forall i :: attempt <= i < attempt + l.retries ==>
        network(i).outcome.Received? && network(i).outcome.response.status == TOO_MANY_REQUESTS
    decreases retry.maxRetries - attempt
  {
    var a := network(attempt);
    if a.outcome.Received? && a.outcome.response.status == TOO_MANY_REQUESTS && attempt < retry.maxRetries {
      RetryFromRetriesOn429(retry, network, attempt + 1);
    }
  }

  /** A success is the 2xx response to the last request. */
  lemma {:induction false} RetryFromSuccess(retry: RetryConfig, network: Network, attempt: nat)
    requires attempt <= retry.maxRetries
    ensures var l := RetryFrom(retry, network, attempt);
      l.result.Success? ==>
        && network(attempt + l.retries).outcome == Received(l.result.value)
        && IsSuccess(l.result.value.status)
    decreases retry.maxRetries - attempt
  {
    var a := network(attempt);
    if a.outcome.Received? && a.outcome.response.status == TOO_MANY_REQUESTS && attempt < retry.maxRetries {
      RetryFromSuccess(retry, network, attempt + 1);
    }
  }

  /** A 429 is retried only while the budget lasts: if the server answers 429
      to every attempt, the loop goes round `max_retries - attempt` times and
      ends in an `Http` error with status 429. */
  lemma {:induction false} AlwaysTooManyRequests(retry: RetryConfig, network: Network, attempt: nat)
    requires attempt <= retry.maxRetries
    requires forall k :: network(k).outcome.Received? && network(k).outcome.response.status == TOO_MANY_REQUESTS
    ensures var l := RetryFrom(retry, network, attempt);
      l.retries == retry.maxRetries - attempt && l.result.Failure? && l.result.error.Http?
      && l.result.error.status == TOO_MANY_REQUESTS
    decreases retry.maxRetries - attempt
  {
    if attempt < retry.maxRetries {
      AlwaysTooManyRequests(retry, network, attempt + 1);
    }
  }

  /** Any status other than 429 ends the loop at once: the response on
      success, an `Http` error with that status otherwise. */
  lemma FinalStatus(retry: RetryConfig, network: Network, attempt: nat)
    requires attempt <= retry.maxRetries
    requires network(attempt).outcome.Received? && network(attempt).outcome.response.status != TOO_MANY_REQUESTS
    ensures var l := RetryFrom(retry, network, attempt);
      var response := network(attempt).outcome.response;
      l.retries == 0
      && (IsSuccess(response.status) ==> l.result == Success(response))
      && (!IsSuccess(response.status) ==> l.result == Failure(HttpError(response.status, response.body)))
  {
  }

  /** An operation that changes the owner's data: not a GET, and only for
      the owner. */
  predicate OwnerWrite(e: Endpoint) {
    e.call.verb != GET && e.call.required == AuthLevel.User
  }

  /** A call that needs the owner, made with anything less, sends nothing and
      reports the tier it needed and the one it had. */
  lemma NeedsUserSendsNothing(config: ClientConfig, call: Call, network: Network)
    requires call.required == AuthLevel.User && Level(config.auth) != AuthLevel.User
    ensures Send(config, call, network) == Dispatch([], [], Failure(AuthRequired(AuthLevel.User, Level(config.auth))))
  {
    assert Below(Level(config.auth), AuthLevel.User);
  }

  /** A call that gets past admission ends in `Success` only with a 2xx
      response. */
  lemma SendSucceedsOnlyOn2xx(config: ClientConfig, call: Call, network: Network)
    ensures Send(config, call, network).result.Success? ==> IsSuccess(Send(config, call, network).result.value.status)
  {
    if !Below(Level(config.auth), call.required) {
      RetryFromSuccess(config.retry, network, 0);
    }
  }

  // ---------------------------------------------------------------------
  // Envelopes

  /** `request_json`, given what `send_with_retry` returned: the decoded
      body (here its JSON tree) with the rate-limit snapshot. A body that
      cannot be read, or is not JSON, is a transport-side error. */
  function RequestJson(sent: Result<Response, DiscogsError>): (r: Result<Models.ApiResponse<Json>, DiscogsError>)
    ensures sent.Failure? ==> r == Failure(sent.error)
    ensures r.Success? ==>
              sent.Success? && sent.value.body.Payload? && sent.value.body.json == Some(r.value.data)
              && r.value.rateLimit == ParseRateLimit(sent.value.headers)
    ensures sent.Success? && sent.value.body.Unreadable? ==> r == Failure(DiscogsError.Request(BodyRead))
    ensures sent.Success? && sent.value.body.Payload? && sent.value.body.json.None? ==> r == Failure(DiscogsError.Request(Decode))
    ensures sent.Success? && sent.value.body.Payload? && sent.value.body.json.Some? ==>
              r == Success(Models.ApiResponse(sent.value.body.json.value, ParseRateLimit(sent.value.headers)))
  {
    if sent.Failure? then Failure(sent.error)
    else
      var response := sent.value;
      match response.body
      case Unreadable => Failure(DiscogsError.Request(BodyRead))
      case Payload(_, json) =>
        if json.None? then Failure(DiscogsError.Request(Decode))
        else Success(Models.ApiResponse(json.value, ParseRateLimit(response.headers)))
  }

  /** `request_empty`: the body is not looked at. */
  function RequestEmpty(sent: Result<Response, DiscogsError>): (r: Result<Models.ApiResponse<()>, DiscogsError>)
    ensures r.Failure? <==> sent.Failure?
    ensures r.Failure? ==> r.error == sent.error
    ensures r.Success? ==> r.value.rateLimit == ParseRateLimit(sent.value.headers)
  {
    if sent.Failure? then Failure(sent.error)
    else Success(Models.ApiResponse((), ParseRateLimit(sent.value.headers)))
  }

  /** `request_bytes`: the raw body. */
  function RequestBytes(sent: Result<Response, DiscogsError>): (r: Result<Models.ApiResponse<seq<Byte>>, DiscogsError>)
    ensures sent.Failure? ==> r == Failure(sent.error)
    ensures r.Success? ==>
              sent.Success? && sent.value.body.Payload? && sent.value.body.bytes == r.value.data
              && r.value.rateLimit == ParseRateLimit(sent.value.headers)
    ensures sent.Success? && sent.value.body.Unreadable? ==> r == Failure(DiscogsError.Request(BodyRead))
    ensures sent.Success? && sent.value.body.Payload? ==>
              r == Success(Models.ApiResponse(sent.value.body.bytes, ParseRateLimit(sent.value.headers)))
  {
    if sent.Failure? then Failure(sent.error)
    else
      var response := sent.value;
      match response.body
      case Unreadable => Failure(DiscogsError.Request(BodyRead))
      case Payload(bytes, _) => Success(Models.ApiResponse(bytes, ParseRateLimit(response.headers)))
  }

  /** A decoded body only ever comes from a 2xx response. */
  lemma RequestJsonOnlyOn2xx(config: ClientConfig, call: Call, network: Network)
    ensures var r := RequestJson(Send(config, call, network).result);
      r.Success? ==> IsSuccess(Send(config, call, network).result.value.status)
  {
    SendSucceedsOnlyOn2xx(config, call, network);
  }

  // ---------------------------------------------------------------------
  // The two calls of the client itself

  /** `about`: the API root, open to everyone. */
  function About(): (e: Endpoint)
    ensures e.call.required == AuthLevel.None && e.call.verb == GET && e.call.path == "/"
    ensures e.envelope == JsonEnvelope && e.call.query.None? && e.call.body.None?
  {
    Endpoint(Call(GET, "/", Option.None, Option.None, AuthLevel.None), JsonEnvelope)
  }

  /** `get_identity`: who the credentials belong to; needs a user. */
  function GetIdentity(): (e: Endpoint)
    ensures e.call.required == AuthLevel.User && e.call.verb == GET && e.call.path == "/oauth/identity"
    ensures e.envelope == JsonEnvelope && e.call.query.None? && e.call.body.None?
  {
    Endpoint(Call(GET, "/oauth/identity", Option.None, Option.None, AuthLevel.User), JsonEnvelope)
  }

  /** Without credentials, `get_identity` fails with `AuthRequired(User,
      None)` and nothing is sent. */
  lemma IdentityNeedsUser(config: ClientConfig, network: Network)
    requires config.auth.None?
    ensures Send(config, GetIdentity().call, network) == Dispatch([], [], Failure(AuthRequired(AuthLevel.User, AuthLevel.None)))
  {
  }

  /** With a personal token, every request `get_identity` sends carries
      `Discogs token=` and the token. */
  lemma IdentityForwardsToken(config: ClientConfig, network: Network, token: string)
    requires config.auth == UserToken(token)
    ensures forall r :: r in Send(config, GetIdentity().call, network).sent ==>
              HeaderValue(r.headers, AUTHORIZATION) == Some("Discogs token=" + token)
  {
    var d := Send(config, GetIdentity().call, network);
    forall r | r in d.sent ensures HeaderValue(r.headers, AUTHORIZATION) == Some("Discogs token=" + token) {
      var i :| 0 <= i < |d.sent| && d.sent[i] == r;
      BuildRequestHeaders(config, GetIdentity().call, network(i).nonce, network(i).timestamp);
    }
  }

  /** One 429 and then a 200, with one retry allowed: two requests, one
      1-ms sleep, and the 200 is the result. */
  lemma RetryOnceThenSucceed(config: ClientConfig, network: Network, first: Response, second: Response)
    requires config.auth.None? && config.retry == RetryConfig(1, 1, 1, 1)
    requires network(0).outcome == Received(first) && first.status == 429
    requires network(1).outcome == Received(second) && second.status == 200
    ensures |Send(config, About().call, network).sent| == 2
    ensures Send(config, About().call, network).delays == [1]
    ensures Send(config, About().call, network).result == Success(second)
  {
    assert RetryDelay(config.retry, 0) == 1;
    assert RetryFrom(config.retry, network, 1) == Loop(0, Success(second));
    assert RetryFrom(config.retry, network, 0) == Loop(1, Success(second));
  }

  /** A 2xx response whose headers carry a rate-limit snapshot hands its
      JSON body and that snapshot to the caller. */
  lemma RequestJsonCarriesRateLimit(response: Response, rl: Models.RateLimit)
    requires response.headers == RateLimitHeaders(rl) && response.body.Payload? && response.body.json.Some?
    ensures RequestJson(Success(response)) == Success(Models.ApiResponse(response.body.json.value, Some(rl)))
  {
    RateLimitRoundTrip(rl, []);
    assert RateLimitHeaders(rl) + [] == RateLimitHeaders(rl);
  }
}
