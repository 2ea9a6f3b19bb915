/** The two OAuth 1.0a handshake calls of src/oauth.rs (`request_token`,
    `access_token`): the request each one sends and how the reply is read.
    The transport is a parameter: the reply to the one request sent is given
    as an `Exchange`, and decoding the `application/x-www-form-urlencoded`
    reply text into pairs (`form_urlencoded::parse`) is the parameter
    `decodeForm`. */
module OAuthHandshake {
  import opened Wrappers
  import opened Http
  import opened OAuthSigning
  import opened Errors

  /** How the one exchange with the server ended: no response at all, or a
      status and the body text (`None` when the body could not be read as
      text). */
  datatype Exchange =
    | TransportError
    | Replied(status: StatusCode, text: Option<string>)

  datatype RequestToken = RequestToken(token: string, tokenSecret: string, callbackConfirmed: bool, authorizeUrl: string)

  datatype AccessToken = AccessToken(accessToken: string, accessTokenSecret: string)

  const AUTHORIZE_URL_PREFIX := "https://discogs.com/oauth/authorize?oauth_token="
  const OAUTH_TOKEN := "oauth_token"
  const OAUTH_TOKEN_SECRET := "oauth_token_secret"
  const OAUTH_CALLBACK_CONFIRMED := "oauth_callback_confirmed"

  // ---------------------------------------------------------------------
  // parse_oauth_form

  /** `parse_oauth_form`: the decoded pairs collected into a `BTreeMap`, so
      that of two pairs with the same name the later one wins. */
  function ParseOAuthForm(pairs: seq<(string, string)>): (m: map<string, string>)
    ensures forall k :: k in m ==> exists i :: 0 <= i < |pairs| && pairs[i].0 == k
  {
    if pairs == [] then map[]
    else
      var last := pairs[|pairs| - 1];
      ParseOAuthForm(pairs[..|pairs| - 1])[last.0 := last.1]
  }

  /** Every name that occurs in the form is a key of the map. */
  lemma {:induction false} FormHasEveryName(pairs: seq<(string, string)>, i: nat)
    requires i < |pairs|
    ensures pairs[i].0 in ParseOAuthForm(pairs)
    decreases |pairs|
  {
    if i < |pairs| - 1 {
      FormHasEveryName(pairs[..|pairs| - 1], i);
    }
  }

  /** The value under a name is that of its last occurrence. */
  lemma {:induction false} FormLastWins(pairs: seq<(string, string)>, i: nat)
    requires i < |pairs|
    requires forall j :: i < j < |pairs| ==> pairs[j].0 != pairs[i].0
    ensures pairs[i].0 in ParseOAuthForm(pairs) && ParseOAuthForm(pairs)[pairs[i].0] == pairs[i].1
    decreases |pairs|
  {
    if i < |pairs| - 1 {
      assert pairs[|pairs| - 1].0 != pairs[i].0;
      FormLastWins(pairs[..|pairs| - 1], i);
    }
  }

  // ---------------------------------------------------------------------
  // Reading the replies

  /** The common prefix of both handshakes: a failed exchange, a non-success
      status (with the body text, or `unknown error` if it cannot be read)
      and an unreadable success body are errors; otherwise the form. */
  function ReplyForm(reply: Exchange, decodeForm: string -> seq<(string, string)>): (r: Result<map<string, string>, DiscogsError>)
    ensures reply.TransportError? ==> r == Failure(DiscogsError.Request(Transport))
    ensures reply.Replied? && !IsSuccess(reply.status) ==>
              r == Failure(Http(reply.status, reply.text.GetOr(UNKNOWN_ERROR)))
    ensures reply.Replied? && IsSuccess(reply.status) && reply.text.None? ==> r == Failure(DiscogsError.Request(BodyRead))
    ensures r.Success? <==> reply.Replied? && IsSuccess(reply.status) && reply.text.Some?
    ensures r.Success? ==> r.value == ParseOAuthForm(decodeForm(reply.text.value))
  {
    match reply
    case TransportError => Failure(DiscogsError.Request(Transport))
    case Replied(status, text) =>
      if !IsSuccess(status) then Failure(Http(status, text.GetOr(UNKNOWN_ERROR)))
      else if text.None? then Failure(DiscogsError.Request(BodyRead))
      else Success(ParseOAuthForm(decodeForm(text.value)))
  }

  /** `request_token` from the reply onwards. */
  function InterpretRequestToken(reply: Exchange, decodeForm: string -> seq<(string, string)>): (r: Result<RequestToken, DiscogsError>)
    ensures ReplyForm(reply, decodeForm).Failure? ==> r == Failure(ReplyForm(reply, decodeForm).error)
    ensures ReplyForm(reply, decodeForm).Success? ==>
      var values := ReplyForm(reply, decodeForm).value;
      && (r.Success? <==> OAUTH_TOKEN in values && OAUTH_TOKEN_SECRET in values)
      && (r.Failure? ==> r.error == InvalidOAuthResponse(reply.text.value))
      && (r.Success? ==>
            && r.value.token == values[OAUTH_TOKEN]
            && r.value.tokenSecret == values[OAUTH_TOKEN_SECRET]
            && (r.value.callbackConfirmed <==> OAUTH_CALLBACK_CONFIRMED in values && values[OAUTH_CALLBACK_CONFIRMED] == "true")
            && r.value.authorizeUrl == AUTHORIZE_URL_PREFIX + r.value.token)
  {
    match ReplyForm(reply, decodeForm)
    case Failure(e) => Failure(e)
    case Success(values) =>
      if OAUTH_TOKEN !in values || OAUTH_TOKEN_SECRET !in values then
        Failure(InvalidOAuthResponse(reply.text.value))
      else
        var token := values[OAUTH_TOKEN];
        var confirmed := OAUTH_CALLBACK_CONFIRMED in values && values[OAUTH_CALLBACK_CONFIRMED] == "true";
        Success(RequestToken(token, values[OAUTH_TOKEN_SECRET], confirmed, AUTHORIZE_URL_PREFIX + token))
  }

  /** `access_token` from the reply onwards. */
  function InterpretAccessToken(reply: Exchange, decodeForm: string -> seq<(string, string)>): (r: Result<AccessToken, DiscogsError>)
    ensures ReplyForm(reply, decodeForm).Failure? ==> r == Failure(ReplyForm(reply, decodeForm).error)
    ensures ReplyForm(reply, decodeForm).Success? ==>
      var values := ReplyForm(reply, decodeForm).value;
      && (r.Success? <==> OAUTH_TOKEN in values && OAUTH_TOKEN_SECRET in values)
      && (r.Failure? ==> r.error == InvalidOAuthResponse(reply.text.value))
      && (r.Success? ==> r.value == AccessToken(values[OAUTH_TOKEN], values[OAUTH_TOKEN_SECRET]))
  {
    match ReplyForm(reply, decodeForm)
    case Failure(e) => Failure(e)
    case Success(values) =>
      if OAUTH_TOKEN !in values || OAUTH_TOKEN_SECRET !in values then
        Failure(InvalidOAuthResponse(reply.text.value))
      else
        Success(AccessToken(values[OAUTH_TOKEN], values[OAUTH_TOKEN_SECRET]))
  }

  // ---------------------------------------------------------------------
  // The two calls

  /** A handshake call: the request that goes out and what the caller gets. */
  datatype Handshake<T> = Handshake(sent: Request, result: Result<T, DiscogsError>)

  /** `DiscogsOAuthClient::request_token` for the drawn nonce and clock
      reading and the form-encoded callback URL. */
  function RequestTokenCall(c: OAuthClient, nonce: string, timestamp: nat, callbackEncoded: string,
                            reply: Exchange, decodeForm: string -> seq<(string, string)>): (h: Handshake<RequestToken>)
    ensures h.sent.verb == GET
    ensures h.result.Success? ==> reply.Replied? && IsSuccess(reply.status)
    ensures h.result.Success? ==> h.result.value.authorizeUrl == AUTHORIZE_URL_PREFIX + h.result.value.token
  {
    Handshake(RequestTokenRequest(c, nonce, timestamp, callbackEncoded), InterpretRequestToken(reply, decodeForm))
  }

  /** `DiscogsOAuthClient::access_token` */
  function AccessTokenCall(c: OAuthClient, nonce: string, timestamp: nat,
                           requestToken: string, requestTokenSecret: string, verifier: string,
                           reply: Exchange, decodeForm: string -> seq<(string, string)>): (h: Handshake<AccessToken>)
    ensures h.sent.verb == POST
    ensures h.result.Success? ==> reply.Replied? && IsSuccess(reply.status)
  {
    Handshake(AccessTokenRequest(c, nonce, timestamp, requestToken, requestTokenSecret, verifier),
              InterpretAccessToken(reply, decodeForm))
  }

  // ---------------------------------------------------------------------
  // Properties of the handshake

  /** Whatever the server answers, one request goes out, with the form
      content type and the signed header of the template. */
  lemma RequestTokenSends(c: OAuthClient, nonce: string, timestamp: nat, callbackEncoded: string,
                          reply: Exchange, decodeForm: string -> seq<(string, string)>)
    ensures var h := RequestTokenCall(c, nonce, timestamp, callbackEncoded, reply, decodeForm);
      && h.sent.verb == GET && h.sent.url == "https://api.discogs.com/oauth/request_token"
      && HeaderValue(h.sent.headers, AUTHORIZATION) == Some(RequestTokenHeader(c, nonce, timestamp, callbackEncoded))
      && HeaderValue(h.sent.headers, CONTENT_TYPE) == Some("application/x-www-form-urlencoded")
  {
    var r := RequestTokenRequest(c, nonce, timestamp, callbackEncoded);
    assert RequestTokenCall(c, nonce, timestamp, callbackEncoded, reply, decodeForm).sent == r;
    EndpointUrls();
  }

  lemma EndpointUrls()
    ensures API_BASE + "/oauth/request_token" == "https://api.discogs.com/oauth/request_token"
    ensures API_BASE + "/oauth/access_token" == "https://api.discogs.com/oauth/access_token"
  {
  }

  lemma AccessTokenSends(c: OAuthClient, nonce: string, timestamp: nat,
                         requestToken: string, requestTokenSecret: string, verifier: string,
                         reply: Exchange, decodeForm: string -> seq<(string, string)>)
    ensures var h := AccessTokenCall(c, nonce, timestamp, requestToken, requestTokenSecret, verifier, reply, decodeForm);
      && h.sent.verb == POST && h.sent.url == "https://api.discogs.com/oauth/access_token"
      && HeaderValue(h.sent.headers, AUTHORIZATION)
           == Some(AccessTokenHeader(c, nonce, timestamp, requestToken, requestTokenSecret, verifier))
      && HeaderValue(h.sent.headers, CONTENT_TYPE) == Some("application/x-www-form-urlencoded")
  {
    var r := AccessTokenRequest(c, nonce, timestamp, requestToken, requestTokenSecret, verifier);
    assert AccessTokenCall(c, nonce, timestamp, requestToken, requestTokenSecret, verifier, reply, decodeForm).sent == r;
    EndpointUrls();
  }

  /** A reply carrying a token and a secret, confirmed or not, yields exactly
      that token, that secret and the authorize URL for the token. Only the
      exact value `true` confirms the callback. */
  lemma {:induction false} RequestTokenGranted(text: string, decodeForm: string -> seq<(string, string)>,
                                               token: string, secret: string, confirmed: string)
    requires decodeForm(text) == [(OAUTH_TOKEN, token), (OAUTH_TOKEN_SECRET, secret), (OAUTH_CALLBACK_CONFIRMED, confirmed)]
    ensures InterpretRequestToken(Replied(200, Some(text)), decodeForm)
         == Success(RequestToken(token, secret, confirmed == "true",
                                 "https://discogs.com/oauth/authorize?oauth_token=" + token))
  {
    var pairs := decodeForm(text);
    FormLastWins(pairs, 0);
    FormLastWins(pairs, 1);
    FormLastWins(pairs, 2);
  }

  /** Without `oauth_callback_confirmed` the callback counts as not
      confirmed. */
  lemma {:induction false} RequestTokenUnconfirmedByDefault(text: string, decodeForm: string -> seq<(string, string)>,
                                                            token: string, secret: string)
    requires decodeForm(text) == [(OAUTH_TOKEN, token), (OAUTH_TOKEN_SECRET, secret)]
    ensures InterpretRequestToken(Replied(200, Some(text)), decodeForm)
         == Success(RequestToken(token, secret, false, AUTHORIZE_URL_PREFIX + token))
  {
    var pairs := decodeForm(text);
    FormLastWins(pairs, 0);
    FormLastWins(pairs, 1);
    FormKeysOnly(pairs, OAUTH_CALLBACK_CONFIRMED);
  }

  /** A name absent from every pair is absent from the form. */
  lemma FormKeysOnly(pairs: seq<(string, string)>, k: string)
    requires forall i :: 0 <= i < |pairs| ==> pairs[i].0 != k
    ensures k !in ParseOAuthForm(pairs)
  {
  }

  /** A successful reply without a token secret is rejected with the raw
      text. */
  lemma {:induction false} RequestTokenNeedsSecret(text: string, decodeForm: string -> seq<(string, string)>, token: string)
    requires decodeForm(text) == [(OAUTH_TOKEN, token)]
    ensures InterpretRequestToken(Replied(200, Some(text)), decodeForm) == Failure(InvalidOAuthResponse(text))
    ensures InterpretAccessToken(Replied(200, Some(text)), decodeForm) == Failure(InvalidOAuthResponse(text))
  {
    FormKeysOnly(decodeForm(text), OAUTH_TOKEN_SECRET);
  }

  /** An error status is reported before the body is looked at, whatever
      the body holds. */
  lemma HandshakeErrorStatus(status: StatusCode, text: Option<string>, decodeForm: string -> seq<(string, string)>)
    requires !IsSuccess(status)
    ensures InterpretRequestToken(Replied(status, text), decodeForm)
         == Failure(Http(status, if text.Some? then text.value else "unknown error"))
    ensures InterpretAccessToken(Replied(status, text), decodeForm)
         == Failure(Http(status, if text.Some? then text.value else "unknown error"))
  {
  }

  /** The access token exchange hands over the token pair of the reply. */
  lemma {:induction false} AccessTokenGranted(text: string, decodeForm: string -> seq<(string, string)>,
                                              token: string, secret: string)
    requires decodeForm(text) == [(OAUTH_TOKEN, token), (OAUTH_TOKEN_SECRET, secret)]
    ensures InterpretAccessToken(Replied(200, Some(text)), decodeForm) == Success(AccessToken(token, secret))
  {
    var pairs := decodeForm(text);
    FormLastWins(pairs, 0);
    FormLastWins(pairs, 1);
  }

  /** When the reply repeats a name, the later value is the one used. */
  lemma {:induction false} AccessTokenLaterPairWins(text: string, decodeForm: string -> seq<(string, string)>,
                                                    token: string, stale: string, secret: string)
    requires decodeForm(text) == [(OAUTH_TOKEN, stale), (OAUTH_TOKEN_SECRET, secret), (OAUTH_TOKEN, token)]
    ensures InterpretAccessToken(Replied(200, Some(text)), decodeForm) == Success(AccessToken(token, secret))
  {
    var pairs := decodeForm(text);
    FormLastWins(pairs, 1);
    FormLastWins(pairs, 2);
  }
}
