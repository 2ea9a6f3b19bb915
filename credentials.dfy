/** The credential model of src/auth.rs: the three capability tiers, the
    four ways of authenticating, the `Authorization` value each one sends
    and the `Accept` value of each output format. */
module Credentials {
  import opened Wrappers
  import opened Text
  import opened OAuthSigning

  /** `AuthLevel`, ordered as declared (the derived `Ord`). */
  datatype AuthLevel = None | Consumer | User

  /** The position of a level in declaration order. */
  function Rank(l: AuthLevel): (r: nat)
    ensures r < 3
  {
    match l
    case None => 0
    case Consumer => 1
    case User => 2
  }

  /** The derived `<` on `AuthLevel`. */
  predicate Below(a: AuthLevel, b: AuthLevel)
    ensures Below(a, b) ==> a != b && a != AuthLevel.User && b != AuthLevel.None
  {
    Rank(a) < Rank(b)
  }

  /** `None < Consumer < User`, and any two levels are comparable: exactly
      one of `a < b`, `a == b`, `b < a` holds. */
  lemma LevelOrderIsTotal(a: AuthLevel, b: AuthLevel)
    ensures Below(AuthLevel.None, AuthLevel.Consumer) && Below(AuthLevel.Consumer, AuthLevel.User)
    ensures Below(a, b) || a == b || Below(b, a)
    ensures !(Below(a, b) && Below(b, a)) && !Below(a, a)
  {
  }

  lemma LevelOrderIsTransitive(a: AuthLevel, b: AuthLevel, c: AuthLevel)
    requires Below(a, b) && Below(b, c)
    ensures Below(a, c) && a == AuthLevel.None && c == AuthLevel.User
  {
  }

  /** `Auth` */
  datatype Auth =
    | None
    | UserToken(token: string)
    | Discogs(consumerKey: string, consumerSecret: string)
    | OAuth(consumerKey: string, consumerSecret: string, accessToken: string, accessTokenSecret: string)

  /** `Auth::default` */
  function DefaultAuth(): (a: Auth)
    ensures Level(a) == AuthLevel.None
  {
    Auth.None
  }

  /** `Auth::level`: consumer credentials reach the Consumer tier; a personal
      token and full OAuth both act as a user. */
  function Level(a: Auth): (l: AuthLevel)
    ensures l == AuthLevel.None <==> a.None?
    ensures l == AuthLevel.Consumer <==> a.Discogs?
    ensures l == AuthLevel.User <==> a.UserToken? || a.OAuth?
  {
    match a
    case None => AuthLevel.None
    case Discogs(_, _) => AuthLevel.Consumer
    case UserToken(_) | OAuth(_, _, _, _) => AuthLevel.User
  }

  const TOKEN_PREFIX := "Discogs token="
  const KEY_PREFIX := "Discogs key="
  const SECRET_SEPARATOR := ", secret="

  /** `Auth::authorization_header`, for the nonce and clock reading that
      `build_oauth_header` draws when the credentials are full OAuth. */
  function AuthorizationHeader(a: Auth, nonce: string, timestamp: nat): (r: Option<string>)
    ensures r.None? <==> Level(a) == AuthLevel.None
  {
    match a
    case None => Option.None
    case UserToken(token) => Some(TOKEN_PREFIX + token)
    case Discogs(key, secret) => Some(KEY_PREFIX + key + SECRET_SEPARATOR + secret)
    case OAuth(key, secret, token, tokenSecret) =>
      Some(BuildOAuthHeader(key, secret, token, tokenSecret, nonce, timestamp))
  }

  // ---------------------------------------------------------------------
  // What a header tells a server

  /** The three header forms start differently, so the header alone shows
      which scheme, and so which tier, the client is using. */
  lemma {:induction false} HeaderRevealsLevel(a: Auth, b: Auth, nonce: string, timestamp: nat,
                                              nonce2: string, timestamp2: nat)
    requires AuthorizationHeader(a, nonce, timestamp) == AuthorizationHeader(b, nonce2, timestamp2)
    ensures Level(a) == Level(b)
    ensures a.UserToken? <==> b.UserToken?
  {
    var h := AuthorizationHeader(a, nonce, timestamp);
    if h.Some? {
      HeaderKind(a, nonce, timestamp);
      HeaderKind(b, nonce2, timestamp2);
    }
  }

  /** The character at position 8 and the first character tell the forms
      apart: `Discogs t…`, `Discogs k…`, `OAuth …`. */
  lemma HeaderKind(a: Auth, nonce: string, timestamp: nat)
    requires !a.None?
    ensures var h := AuthorizationHeader(a, nonce, timestamp).value;
      |h| > 8 &&
      (a.UserToken? ==> h[0] == 'D' && h[8] == 't') &&
      (a.Discogs? ==> h[0] == 'D' && h[8] == 'k') &&
      (a.OAuth? ==> h[0] == 'O')
  {
    match a
    case UserToken(token) =>
      assert (TOKEN_PREFIX + token)[8] == TOKEN_PREFIX[8];
    case Discogs(key, secret) =>
      var h := KEY_PREFIX + key + SECRET_SEPARATOR + secret;
      assert h[..|KEY_PREFIX|] == KEY_PREFIX;
      assert h[8] == KEY_PREFIX[8];
    case OAuth(key, secret, token, tokenSecret) =>
      var body := JoinParams(ApiCallParams(key, secret, token, tokenSecret, nonce, timestamp));
      assert BuildOAuthHeader(key, secret, token, tokenSecret, nonce, timestamp) == "OAuth " + body;
  }

  /** A personal token can be read back from its header. */
  lemma UserTokenHeaderInjective(t1: string, t2: string, nonce: string, timestamp: nat)
    requires AuthorizationHeader(UserToken(t1), nonce, timestamp) == AuthorizationHeader(UserToken(t2), nonce, timestamp)
    ensures t1 == t2
  {
    assert (TOKEN_PREFIX + t1)[|TOKEN_PREFIX|..] == t1;
    assert (TOKEN_PREFIX + t2)[|TOKEN_PREFIX|..] == t2;
  }

  /** The header of a token holds the token right after `Discogs token=`. */
  lemma UserTokenHeaderShape(token: string, nonce: string, timestamp: nat)
    ensures var h := AuthorizationHeader(UserToken(token), nonce, timestamp);
      h.Some? && StartsWith(h.value, "Discogs token=") && h.value[14..] == token
  {
    assert TOKEN_PREFIX + token == "Discogs token=" + token;
  }

  /** The token `abc123` is sent as `Discogs token=abc123`. */
  lemma UserTokenHeaderExample(nonce: string, timestamp: nat)
    ensures AuthorizationHeader(UserToken("abc123"), nonce, timestamp) == Some("Discogs token=abc123")
  {
    assert TOKEN_PREFIX + "abc123" == "Discogs token=abc123";
  }

  /** Consumer credentials: key after `Discogs key=`, then `, secret=` and the
      secret, which is the last thing in the header. */
  lemma ConsumerHeaderShape(key: string, secret: string, nonce: string, timestamp: nat)
    ensures var h := AuthorizationHeader(Auth.Discogs(key, secret), nonce, timestamp);
      h.Some? && StartsWith(h.value, "Discogs key=")
      && h.value[12..12 + |key|] == key
      && h.value[12 + |key|..12 + |key| + 9] == ", secret="
      && h.value[12 + |key| + 9..] == secret
  {
    var h := KEY_PREFIX + key + SECRET_SEPARATOR + secret;
    assert h == "Discogs key=" + key + ", secret=" + secret;
  }

  /** Full OAuth: the four credentials reach `build_oauth_header` in the
      order key, secret, token, token secret. Read back, the header shows
      the key, the token, the PLAINTEXT signature over both secrets and the
      token secret in their places. */
  lemma OAuthHeaderCarriesCredentials(key: string, secret: string, token: string, tokenSecret: string,
                                      nonce: string, timestamp: nat)
    requires ValidNonce(nonce)
    requires '"' !in key && '"' !in secret && '"' !in token && '"' !in tokenSecret
    ensures var h := AuthorizationHeader(OAuth(key, secret, token, tokenSecret), nonce, timestamp);
      h.Some? && ParseHeader(h.value) == Some(ApiCallParams(key, secret, token, tokenSecret, nonce, timestamp))
  {
    BuildOAuthHeaderReadsBack(key, secret, token, tokenSecret, nonce, timestamp);
  }

  // ---------------------------------------------------------------------
  // Output formats

  /** `OutputFormat` */
  datatype OutputFormat = Discogs | Plaintext | Html

  /** `OutputFormat::default` */
  function DefaultOutputFormat(): (f: OutputFormat)
    ensures AcceptHeaderValue(f) == "application/vnd.discogs.v2.discogs+json"
  {
    OutputFormat.Discogs
  }

  /** `OutputFormat::accept_header_value` */
  function AcceptHeaderValue(f: OutputFormat): (r: string)
    ensures StartsWith(r, "application/vnd.discogs.v2.")
    ensures r == "application/vnd.discogs.v2." + OutputFormatName(f) + "+json"
  {
    match f
    case Discogs => "application/vnd.discogs.v2.discogs+json"
    case Plaintext => "application/vnd.discogs.v2.plaintext+json"
    case Html => "application/vnd.discogs.v2.html+json"
  }

  /** Each format asks for its own media type. */
  lemma AcceptHeaderInjective(f: OutputFormat, g: OutputFormat)
    ensures AcceptHeaderValue(f) == AcceptHeaderValue(g) <==> f == g
  {
    if f != g {
      assert AcceptHeaderValue(f)[27] != AcceptHeaderValue(g)[27];
    }
  }

  /** The `snake_case` form serde gives an output format. */
  function OutputFormatName(f: OutputFormat): (r: string)
    ensures |r| >= 4 && forall i :: 0 <= i < |r| ==> 'a' <= r[i] <= 'z'
  {
    match f
    case Discogs => "discogs"
    case Plaintext => "plaintext"
    case Html => "html"
  }

  function ParseOutputFormat(s: string): (r: Option<OutputFormat>)
    ensures r.Some? ==> OutputFormatName(r.value) == s
  {
    if s == "discogs" then Some(OutputFormat.Discogs)
    else if s == "plaintext" then Some(OutputFormat.Plaintext)
    else if s == "html" then Some(OutputFormat.Html)
    else Option.None
  }

  lemma OutputFormatRoundTrip(f: OutputFormat)
    ensures ParseOutputFormat(OutputFormatName(f)) == Some(f)
  {
  }
}
