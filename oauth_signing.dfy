/** The signing half of src/oauth.rs: the `Authorization: OAuth …` header
    templates of the two handshake steps and of `build_oauth_header`, the
    nonce filter, and the request each handshake step sends. The header
    is signed with the PLAINTEXT method of section 3.4.4 of RFC 5849 and
    laid out as in section 3.5.1 of RFC 5849. The random nonce and the
    clock reading are parameters here. */
module OAuthSigning {
  import opened Wrappers
  import opened Text
  import opened Http

  const API_BASE := "https://api.discogs.com"
  const FORM_CONTENT_TYPE := "application/x-www-form-urlencoded"

  /** `DiscogsOAuthClient`, without its HTTP transport. */
  datatype OAuthClient = OAuthClient(consumerKey: string, consumerSecret: string, userAgent: string)

  // ---------------------------------------------------------------------
  // Nonces

  /** `nonce_safe`: keep the ASCII letters and digits, in order. */
  function NonceSafe(nonce: string): (r: string)
    ensures AllAlphanumeric(r)
    ensures |r| <= |nonce|
  {
    if nonce == [] then []
    else (if IsAsciiAlphanumeric(nonce[0]) then [nonce[0]] else []) + NonceSafe(nonce[1..])
  }

  /** What `oauth_nonce` produces: 64 ASCII alphanumeric characters. */
  predicate ValidNonce(nonce: string) {
    |nonce| == 64 && AllAlphanumeric(nonce)
  }

  /** Filtering distributes over concatenation, so the kept characters stay
      in their original order. */
  lemma {:induction false} NonceSafeAppend(a: string, b: string)
    ensures NonceSafe(a + b) == NonceSafe(a) + NonceSafe(b)
  {
    if a == [] {
      assert a + b == b;
    } else {
      assert (a + b)[0] == a[0];
      assert (a + b)[1..] == a[1..] + b;
      NonceSafeAppend(a[1..], b);
    }
  }

  /** A character survives exactly when it is alphanumeric. */
  lemma {:induction false} NonceSafeMembers(nonce: string, c: char)
    ensures c in NonceSafe(nonce) <==> c in nonce && IsAsciiAlphanumeric(c)
  {
    if nonce != [] {
      NonceSafeMembers(nonce[1..], c);
      assert nonce == [nonce[0]] + nonce[1..];
    }
  }

  /** An alphanumeric string passes through unchanged. */
  lemma {:induction false} NonceSafeIdentity(nonce: string)
    requires AllAlphanumeric(nonce)
    ensures NonceSafe(nonce) == nonce
  {
    if nonce != [] {
      NonceSafeIdentity(nonce[1..]);
    }
  }

  /** Filtering twice is filtering once. */
  lemma NonceSafeIdempotent(nonce: string)
    ensures NonceSafe(NonceSafe(nonce)) == NonceSafe(nonce)
  {
    NonceSafeIdentity(NonceSafe(nonce));
  }

  /** A nonce as `oauth_nonce` makes it is not changed by the filter. */
  lemma ValidNonceIsSafe(nonce: string)
    requires ValidNonce(nonce)
    ensures NonceSafe(nonce) == nonce && |NonceSafe(nonce)| == 64
  {
    NonceSafeIdentity(nonce);
  }

  // ---------------------------------------------------------------------
  // The header shape of RFC 5849, section 3.5.1

  datatype Param = Param(name: string, value: string)

  function RenderParam(p: Param): string {
    p.name + "=\"" + p.value + "\""
  }

  function JoinParams(ps: seq<Param>): string {
    if ps == [] then ""
    else if |ps| == 1 then RenderParam(ps[0])
    else RenderParam(ps[0]) + ", " + JoinParams(ps[1..])
  }

  /** `OAuth name="value", name="value", …` */
  function HeaderOf(ps: seq<Param>): string {
    "OAuth " + JoinParams(ps)
  }

  /** The PLAINTEXT signature of RFC 5849 section 3.4.4 as this client sends
      it: consumer secret, `&`, token secret, neither of them percent-encoded. */
  function PlaintextSignature(consumerSecret: string, tokenSecret: string): string {
    consumerSecret + "&" + tokenSecret
  }

  // ---------------------------------------------------------------------
  // The three headers. Each `format!` template of the source is a header of
  // the section 3.5.1 shape whose parameters appear in the template's
  // order; the parameter lists below follow the templates one for one.

  /** The parameters `request_token` sends: no token yet, so the signature
      ends in a bare `&`; the callback goes last, already form-encoded by the
      caller. */
  function RequestTokenParams(c: OAuthClient, nonce: string, timestamp: nat, callbackEncoded: string): seq<Param> {
    [ Param("oauth_consumer_key", c.consumerKey),
      Param("oauth_nonce", NonceSafe(nonce)),
      Param("oauth_signature", PlaintextSignature(c.consumerSecret, "")),
      Param("oauth_signature_method", "PLAINTEXT"),
      Param("oauth_timestamp", DecimalString(timestamp)),
      Param("oauth_callback", callbackEncoded) ]
  }

  /** The parameters `access_token` sends: the request token as
      `oauth_token`, the signature over the request token secret, the
      verifier last. */
  function AccessTokenParams(c: OAuthClient, nonce: string, timestamp: nat,
                             requestToken: string, requestTokenSecret: string, verifier: string): seq<Param> {
    [ Param("oauth_consumer_key", c.consumerKey),
      Param("oauth_nonce", NonceSafe(nonce)),
      Param("oauth_token", requestToken),
      Param("oauth_signature", PlaintextSignature(c.consumerSecret, requestTokenSecret)),
      Param("oauth_signature_method", "PLAINTEXT"),
      Param("oauth_timestamp", DecimalString(timestamp)),
      Param("oauth_verifier", verifier) ]
  }

  /** The parameters of `build_oauth_header`. The nonce goes in as
      `oauth_nonce` made it, without the filter, and the token secret is sent
      a second time on its own. */
  function ApiCallParams(consumerKey: string, consumerSecret: string,
                         accessToken: string, accessTokenSecret: string,
                         nonce: string, timestamp: nat): (ps: seq<Param>)
    ensures |ps| == 8 && forall i :: 0 <= i < |ps| ==> StartsWith(ps[i].name, "oauth_")
    ensures forall i :: 0 <= i < |ps| && ps[i].name == "oauth_signature" ==>
              EndsWith(ps[i].value, "&" + accessTokenSecret)
  {
    [ Param("oauth_consumer_key", consumerKey),
      Param("oauth_token", accessToken),
      Param("oauth_signature_method", "PLAINTEXT"),
      Param("oauth_signature", PlaintextSignature(consumerSecret, accessTokenSecret)),
      Param("oauth_timestamp", DecimalString(timestamp)),
      Param("oauth_nonce", nonce),
      Param("oauth_token_secret", accessTokenSecret),
      Param("oauth_version", "1.0") ]
  }

  /** The first parameter of a header of two or more. */
  lemma HeaderStarts(ps: seq<Param>, first: Param)
    requires |ps| >= 2 && ps[0] == first
    ensures StartsWith(HeaderOf(ps), "OAuth " + RenderParam(first) + ", ")
  {
    assert HeaderOf(ps) == ("OAuth " + RenderParam(first) + ", ") + JoinParams(ps[1..]);
  }

  /** The last parameter of a header closes it. */
  lemma {:induction false} JoinParamsEnds(ps: seq<Param>)
    requires |ps| >= 1
    ensures EndsWith(JoinParams(ps), RenderParam(ps[|ps| - 1]))
  {
    if |ps| > 1 {
      JoinParamsEnds(ps[1..]);
      assert ps[1..][|ps[1..]| - 1] == ps[|ps| - 1];
      var head := RenderParam(ps[0]) + ", ";
      var tail := JoinParams(ps[1..]);
      var last := RenderParam(ps[|ps| - 1]);
      assert JoinParams(ps) == head + tail;
      assert (head + tail)[|head + tail| - |last|..] == tail[|tail| - |last|..];
    }
  }

  lemma HeaderEnds(ps: seq<Param>, last: Param)
    requires |ps| >= 1 && ps[|ps| - 1] == last
    ensures EndsWith(HeaderOf(ps), RenderParam(last))
  {
    JoinParamsEnds(ps);
    var j := JoinParams(ps);
    var last := RenderParam(ps[|ps| - 1]);
    assert ("OAuth " + j)[|"OAuth " + j| - |last|..] == j[|j| - |last|..];
  }

  /** The request-token header: the consumer key first, the callback last. */
  function RequestTokenHeader(c: OAuthClient, nonce: string, timestamp: nat, callbackEncoded: string): (h: string)
    ensures StartsWith(h, "OAuth " + RenderParam(Param("oauth_consumer_key", c.consumerKey)) + ", ")
    ensures EndsWith(h, RenderParam(Param("oauth_callback", callbackEncoded)))
  {
    var ps := RequestTokenParams(c, nonce, timestamp, callbackEncoded);
    HeaderStarts(ps, Param("oauth_consumer_key", c.consumerKey));
    HeaderEnds(ps, Param("oauth_callback", callbackEncoded));
    HeaderOf(ps)
  }

  /** The access-token header: the consumer key first, the verifier last. */
  function AccessTokenHeader(c: OAuthClient, nonce: string, timestamp: nat,
                             requestToken: string, requestTokenSecret: string, verifier: string): (h: string)
    ensures StartsWith(h, "OAuth " + RenderParam(Param("oauth_consumer_key", c.consumerKey)) + ", ")
    ensures EndsWith(h, RenderParam(Param("oauth_verifier", verifier)))
  {
    var ps := AccessTokenParams(c, nonce, timestamp, requestToken, requestTokenSecret, verifier);
    HeaderStarts(ps, Param("oauth_consumer_key", c.consumerKey));
    HeaderEnds(ps, Param("oauth_verifier", verifier));
    HeaderOf(ps)
  }

  /** `build_oauth_header`, the header of every API call made with full
      OAuth credentials, for the nonce and clock reading it drew (a nonce
      from `oauth_nonce` satisfies ValidNonce). */
  function BuildOAuthHeader(consumerKey: string, consumerSecret: string,
                            accessToken: string, accessTokenSecret: string,
                            nonce: string, timestamp: nat): (h: string)
    ensures StartsWith(h, "OAuth " + RenderParam(Param("oauth_consumer_key", consumerKey)) + ", ")
    ensures EndsWith(h, RenderParam(Param("oauth_version", "1.0")))
  {
    var ps := ApiCallParams(consumerKey, consumerSecret, accessToken, accessTokenSecret, nonce, timestamp);
    HeaderStarts(ps, Param("oauth_consumer_key", consumerKey));
    HeaderEnds(ps, Param("oauth_version", "1.0"));
    HeaderOf(ps)
  }

  // ---------------------------------------------------------------------
  // Reading a header back

  /** The text before and after the first `c` in `s`, if there is one. */
  function SplitAt(s: string, c: char): (r: Option<(string, string)>)
    ensures r.Some? ==> |r.value.0| + 1 + |r.value.1| == |s|
  {
    if s == [] then None
    else if s[0] == c then Some(([], s[1..]))
    else match SplitAt(s[1..], c)
      case None => None
      case Some(p) => Some(([s[0]] + p.0, p.1))
  }

  lemma {:induction false} SplitAtFirst(a: string, c: char, b: string)
    requires c !in a
    ensures SplitAt(a + [c] + b, c) == Some((a, b))
  {
    if a == [] {
      assert a + [c] + b == [c] + b;
    } else {
      assert (a + [c] + b)[1..] == a[1..] + [c] + b;
      SplitAtFirst(a[1..], c, b);
      assert [a[0]] + a[1..] == a;
    }
  }

  /** The parameter list of a section 3.5.1 header body: `name="value"`
      items separated by `, `, where a name runs to the first `=` and a
      value to the next `"`. */
  function ParseParams(s: string): (r: Option<seq<Param>>)
    ensures r.Some? ==> |r.value| >= 1
    decreases |s|
  {
    match SplitAt(s, '=')
    case None => None
    case Some(p) =>
      var (name, rest) := p;
      if rest == [] || rest[0] != '"' then None
      else match SplitAt(rest[1..], '"')
        case None => None
        case Some(q) =>
          var (value, tail) := q;
          if tail == [] then Some([Param(name, value)])
          else if |tail| >= 2 && tail[..2] == ", " then
            match ParseParams(tail[2..])
            case None => None
            case Some(more) => Some([Param(name, value)] + more)
          else None
  }

  /** Reads an `Authorization: OAuth …` value back into its parameters. */
  function ParseHeader(h: string): (r: Option<seq<Param>>)
    ensures r.Some? ==> StartsWith(h, "OAuth ") && |r.value| >= 1
  {
    if "OAuth " <= h then ParseParams(h[6..]) else None
  }

  /** A parameter that can be read back: the name holds no `=` or `"` and
      the value no `"`. The source does not percent-encode what it puts in
      a header, so a value with a quote in it would spoil the header. */
  predicate Readable(p: Param) {
    '=' !in p.name && '"' !in p.name && '"' !in p.value
  }

  /** One rendered parameter in front of whatever follows it. */
  lemma RenderParamSplit(p: Param, rest: string)
    ensures RenderParam(p) + rest == p.name + ['='] + (['"'] + (p.value + ['"'] + rest))
  {
  }

  /** Reading one readable parameter off the front of a header body. */
  lemma ParseParamsStep(p: Param, rest: string)
    requires Readable(p)
    ensures ParseParams(RenderParam(p) + rest)
         == if rest == [] then Some([p])
            else if |rest| >= 2 && rest[..2] == ", " then
              match ParseParams(rest[2..])
              case None => None
              case Some(more) => Some([p] + more)
            else None
  {
    var after := ['"'] + (p.value + ['"'] + rest);
    RenderParamSplit(p, rest);
    SplitAtFirst(p.name, '=', after);
    assert after[1..] == p.value + ['"'] + rest;
    SplitAtFirst(p.value, '"', rest);
  }

  /** One readable parameter reads back. */
  lemma ParseJoinOne(p: Param)
    requires Readable(p)
    ensures ParseParams(JoinParams([p])) == Some([p])
  {
    assert JoinParams([p]) == RenderParam(p) + "";
    ParseParamsStep(p, "");
  }

  /** A readable parameter, a `, ` and a body that reads back. */
  lemma ParseParamsCons(p: Param, body: string, ps: seq<Param>)
    requires Readable(p)
    requires ParseParams(body) == Some(ps)
    ensures ParseParams(RenderParam(p) + (", " + body)) == Some([p] + ps)
  {
    var rest := ", " + body;
    ParseParamsStep(p, rest);
    assert rest[..2] == ", " && rest[2..] == body;
  }

  lemma JoinParamsCons(p: Param, ps: seq<Param>)
    requires |ps| >= 1
    ensures JoinParams([p] + ps) == RenderParam(p) + ", " + JoinParams(ps)
  {
    var qs := [p] + ps;
    assert |qs| > 1 && qs[0] == p && qs[1..] == ps;
  }

  lemma {:induction false} ParseJoinParams(ps: seq<Param>)
    requires |ps| >= 1
    requires forall i :: 0 <= i < |ps| ==> Readable(ps[i])
    ensures ParseParams(JoinParams(ps)) == Some(ps)
  {
    if |ps| == 1 {
      assert [ps[0]] == ps;
      ParseJoinOne(ps[0]);
    } else {
      ParseJoinParams(ps[1..]);
      JoinParamsCons(ps[0], ps[1..]);
      assert [ps[0]] + ps[1..] == ps;
      var body := JoinParams(ps[1..]);
      assert RenderParam(ps[0]) + ", " + body == RenderParam(ps[0]) + (", " + body);
      ParseParamsCons(ps[0], body, ps[1..]);
    }
  }

  /** Putting `OAuth ` in front keeps a body that reads back readable. */
  lemma ParseHeaderOf(ps: seq<Param>)
    requires ParseParams(JoinParams(ps)) == Some(ps)
    ensures ParseHeader(HeaderOf(ps)) == Some(ps)
  {
    assert HeaderOf(ps)[6..] == JoinParams(ps);
  }

  /** The header of a readable parameter list reads back as that list. */
  lemma ParseHeaderOfReadable(ps: seq<Param>)
    requires |ps| >= 1
    requires forall i :: 0 <= i < |ps| ==> Readable(ps[i])
    ensures ParseHeader(HeaderOf(ps)) == Some(ps)
  {
    ParseJoinParams(ps);
    ParseHeaderOf(ps);
  }

  lemma DigitsHaveNoQuote(s: string)
    requires AllDigits(s)
    ensures '"' !in s
  {
    forall i | 0 <= i < |s| ensures s[i] != '"' {
      assert IsAsciiDigit(s[i]);
    }
  }

  lemma AlphanumericHasNoQuote(s: string)
    requires AllAlphanumeric(s)
    ensures '"' !in s
  {
    forall i | 0 <= i < |s| ensures s[i] != '"' {
      assert IsAsciiAlphanumeric(s[i]);
    }
  }

  lemma ReadableParam(name: string, value: string)
    requires '=' !in name && '"' !in name && '"' !in value
    ensures Readable(Param(name, value))
  {
  }

  lemma ReadsBackSix(p0: Param, p1: Param, p2: Param, p3: Param, p4: Param, p5: Param)
    requires Readable(p0) && Readable(p1) && Readable(p2) && Readable(p3) && Readable(p4) && Readable(p5)
    ensures ParseHeader(HeaderOf([p0, p1, p2, p3, p4, p5])) == Some([p0, p1, p2, p3, p4, p5])
  {
    var ps := [p0, p1, p2, p3, p4, p5];
    forall i | 0 <= i < |ps| ensures Readable(ps[i]) {
      if i == 0 {} else if i == 1 {} else if i == 2 {} else if i == 3 {} else if i == 4 {} else {}
    }
    ParseHeaderOfReadable(ps);
  }

  lemma ReadsBackSeven(p0: Param, p1: Param, p2: Param, p3: Param, p4: Param, p5: Param, p6: Param)
    requires Readable(p0) && Readable(p1) && Readable(p2) && Readable(p3) && Readable(p4) && Readable(p5)
    requires Readable(p6)
    ensures ParseHeader(HeaderOf([p0, p1, p2, p3, p4, p5, p6])) == Some([p0, p1, p2, p3, p4, p5, p6])
  {
    var ps := [p0, p1, p2, p3, p4, p5, p6];
    forall i | 0 <= i < |ps| ensures Readable(ps[i]) {
      if i == 0 {} else if i == 1 {} else if i == 2 {} else if i == 3 {} else if i == 4 {} else if i == 5 {} else {}
    }
    ParseHeaderOfReadable(ps);
  }

  lemma ReadsBackEight(p0: Param, p1: Param, p2: Param, p3: Param, p4: Param, p5: Param, p6: Param, p7: Param)
    requires Readable(p0) && Readable(p1) && Readable(p2) && Readable(p3) && Readable(p4) && Readable(p5)
    requires Readable(p6) && Readable(p7)
    ensures ParseHeader(HeaderOf([p0, p1, p2, p3, p4, p5, p6, p7])) == Some([p0, p1, p2, p3, p4, p5, p6, p7])
  {
    var ps := [p0, p1, p2, p3, p4, p5, p6, p7];
    forall i | 0 <= i < |ps| ensures Readable(ps[i]) {
      if i == 0 {} else if i == 1 {} else if i == 2 {} else if i == 3 {}
      else if i == 4 {} else if i == 5 {} else if i == 6 {} else {}
    }
    ParseHeaderOfReadable(ps);
  }

  /** The `request_token` header carries, in this order, the consumer key,
      the filtered nonce, the PLAINTEXT signature over an empty token
      secret, the method name, the timestamp and the encoded callback; when
      the caller's strings hold no quote it reads back as exactly that. */
  lemma RequestTokenHeaderReadsBack(c: OAuthClient, nonce: string, timestamp: nat, callbackEncoded: string)
    requires '"' !in c.consumerKey && '"' !in c.consumerSecret && '"' !in callbackEncoded
    ensures ParseHeader(RequestTokenHeader(c, nonce, timestamp, callbackEncoded))
         == Some(RequestTokenParams(c, nonce, timestamp, callbackEncoded))
  {
    AlphanumericHasNoQuote(NonceSafe(nonce));
    DigitsHaveNoQuote(DecimalString(timestamp));
    ReadableParam("oauth_consumer_key", c.consumerKey);
    ReadableParam("oauth_nonce", NonceSafe(nonce));
    ReadableParam("oauth_signature", PlaintextSignature(c.consumerSecret, ""));
    ReadableParam("oauth_signature_method", "PLAINTEXT");
    ReadableParam("oauth_timestamp", DecimalString(timestamp));
    ReadableParam("oauth_callback", callbackEncoded);
    ReadsBackSix(
      Param("oauth_consumer_key", c.consumerKey),
      Param("oauth_nonce", NonceSafe(nonce)),
      Param("oauth_signature", PlaintextSignature(c.consumerSecret, "")),
      Param("oauth_signature_method", "PLAINTEXT"),
      Param("oauth_timestamp", DecimalString(timestamp)),
      Param("oauth_callback", callbackEncoded));
  }

  /** The `access_token` header carries the consumer key, the filtered
      nonce, the request token, the PLAINTEXT signature over the request
      token secret, the method name, the timestamp and the verifier, and
      reads back as exactly that when the caller's strings hold no quote. */
  lemma AccessTokenHeaderReadsBack(c: OAuthClient, nonce: string, timestamp: nat,
                                   requestToken: string, requestTokenSecret: string, verifier: string)
    requires '"' !in c.consumerKey && '"' !in c.consumerSecret
    requires '"' !in requestToken && '"' !in requestTokenSecret && '"' !in verifier
    ensures ParseHeader(AccessTokenHeader(c, nonce, timestamp, requestToken, requestTokenSecret, verifier))
         == Some(AccessTokenParams(c, nonce, timestamp, requestToken, requestTokenSecret, verifier))
  {
    AlphanumericHasNoQuote(NonceSafe(nonce));
    DigitsHaveNoQuote(DecimalString(timestamp));
    ReadableParam("oauth_consumer_key", c.consumerKey);
    ReadableParam("oauth_nonce", NonceSafe(nonce));
    ReadableParam("oauth_token", requestToken);
    ReadableParam("oauth_signature", PlaintextSignature(c.consumerSecret, requestTokenSecret));
    ReadableParam("oauth_signature_method", "PLAINTEXT");
    ReadableParam("oauth_timestamp", DecimalString(timestamp));
    ReadableParam("oauth_verifier", verifier);
    ReadsBackSeven(
      Param("oauth_consumer_key", c.consumerKey),
      Param("oauth_nonce", NonceSafe(nonce)),
      Param("oauth_token", requestToken),
      Param("oauth_signature", PlaintextSignature(c.consumerSecret, requestTokenSecret)),
      Param("oauth_signature_method", "PLAINTEXT"),
      Param("oauth_timestamp", DecimalString(timestamp)),
      Param("oauth_verifier", verifier));
  }

  /** The `build_oauth_header` header reads back as its eight parameters
      when the credentials hold no quote; the nonce and timestamp never do. */
  lemma BuildOAuthHeaderReadsBack(consumerKey: string, consumerSecret: string,
                                  accessToken: string, accessTokenSecret: string,
                                  nonce: string, timestamp: nat)
    requires ValidNonce(nonce)
    requires '"' !in consumerKey && '"' !in consumerSecret
    requires '"' !in accessToken && '"' !in accessTokenSecret
    ensures ParseHeader(BuildOAuthHeader(consumerKey, consumerSecret, accessToken, accessTokenSecret, nonce, timestamp))
         == Some(ApiCallParams(consumerKey, consumerSecret, accessToken, accessTokenSecret, nonce, timestamp))
  {
    AlphanumericHasNoQuote(nonce);
    DigitsHaveNoQuote(DecimalString(timestamp));
    ReadableParam("oauth_consumer_key", consumerKey);
    ReadableParam("oauth_token", accessToken);
    ReadableParam("oauth_signature_method", "PLAINTEXT");
    ReadableParam("oauth_signature", PlaintextSignature(consumerSecret, accessTokenSecret));
    ReadableParam("oauth_timestamp", DecimalString(timestamp));
    ReadableParam("oauth_nonce", nonce);
    ReadableParam("oauth_token_secret", accessTokenSecret);
    ReadableParam("oauth_version", "1.0");
    ReadsBackEight(
      Param("oauth_consumer_key", consumerKey),
      Param("oauth_token", accessToken),
      Param("oauth_signature_method", "PLAINTEXT"),
      Param("oauth_signature", PlaintextSignature(consumerSecret, accessTokenSecret)),
      Param("oauth_timestamp", DecimalString(timestamp)),
      Param("oauth_nonce", nonce),
      Param("oauth_token_secret", accessTokenSecret),
      Param("oauth_version", "1.0"));
  }

  // ---------------------------------------------------------------------
  // The requests the two handshake steps send

  function RequestTokenRequest(c: OAuthClient, nonce: string, timestamp: nat, callbackEncoded: string): (r: Request)
    ensures r.verb == GET && r.url == API_BASE + "/oauth/request_token"
    ensures HeaderValue(r.headers, AUTHORIZATION) == Some(RequestTokenHeader(c, nonce, timestamp, callbackEncoded))
    ensures HeaderValue(r.headers, CONTENT_TYPE) == Some(FORM_CONTENT_TYPE)
    ensures HeaderValue(r.headers, USER_AGENT) == Some(c.userAgent)
    ensures r.query == [] && r.body == None
  {
    var headers := [(USER_AGENT, c.userAgent), (CONTENT_TYPE, FORM_CONTENT_TYPE),
                    (AUTHORIZATION, RequestTokenHeader(c, nonce, timestamp, callbackEncoded))];
    assert headers[1..] == [headers[1], headers[2]] && headers[1..][1..] == [headers[2]];
    assert USER_AGENT != AUTHORIZATION && CONTENT_TYPE != AUTHORIZATION && USER_AGENT != CONTENT_TYPE;
    assert HeaderValue(headers[1..][1..], AUTHORIZATION) == Some(headers[2].1);
    assert HeaderValue(headers[1..], AUTHORIZATION) == Some(headers[2].1);
    Request(GET, API_BASE + "/oauth/request_token", headers, [], None)
  }

  function AccessTokenRequest(c: OAuthClient, nonce: string, timestamp: nat,
                              requestToken: string, requestTokenSecret: string, verifier: string): (r: Request)
    ensures r.verb == POST && r.url == API_BASE + "/oauth/access_token"
    ensures HeaderValue(r.headers, AUTHORIZATION)
         == Some(AccessTokenHeader(c, nonce, timestamp, requestToken, requestTokenSecret, verifier))
    ensures HeaderValue(r.headers, CONTENT_TYPE) == Some(FORM_CONTENT_TYPE)
    ensures HeaderValue(r.headers, USER_AGENT) == Some(c.userAgent)
    ensures r.query == [] && r.body == None
  {
    var headers := [(USER_AGENT, c.userAgent), (CONTENT_TYPE, FORM_CONTENT_TYPE),
                    (AUTHORIZATION, AccessTokenHeader(c, nonce, timestamp, requestToken, requestTokenSecret, verifier))];
    assert headers[1..] == [headers[1], headers[2]] && headers[1..][1..] == [headers[2]];
    assert USER_AGENT != AUTHORIZATION && CONTENT_TYPE != AUTHORIZATION && USER_AGENT != CONTENT_TYPE;
    assert HeaderValue(headers[1..][1..], AUTHORIZATION) == Some(headers[2].1);
    assert HeaderValue(headers[1..], AUTHORIZATION) == Some(headers[2].1);
    Request(POST, API_BASE + "/oauth/access_token", headers, [], None)
  }
}
