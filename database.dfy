/** The database endpoints of src/endpoints/database.rs, each modelled as
    the `Endpoint` it hands to the client. `encode_path` is a parameter. */
module Database {
  import opened Wrappers
  import opened Text
  import opened JsonValues
  import opened Http
  import opened Credentials
  import opened Errors
  import Models
  import opened Client

  /** `u8::clamp(1, 5)`: a rating is moved into the range the API accepts. */
  function ClampRating(rating: U8): (c: U8)
    ensures 1 <= c <= 5
    ensures 1 <= rating <= 5 ==> c == rating
    ensures rating == 0 ==> c == 1
    ensures rating > 5 ==> c == 5
  {
    if rating < 1 then 1 else if rating > 5 then 5 else rating
  }

  /** Clamping twice is clamping once. */
  lemma ClampIdempotent(rating: U8)
    ensures ClampRating(ClampRating(rating)) == ClampRating(rating)
  {
  }

  /** `RatingBody` */
  function RatingBody(rating: U8): (j: Json)
    ensures Get(j, "rating") == Some(Json.Number(rating))
  {
    Object([("rating", Json.Number(rating))])
  }

  /** The query `get_release` writes for a currency: `curr_abbr` and the
      currency's code. */
  function CurrencyQuery(currency: Option<Models.Currency>): (w: Option<seq<(string, Json)>>)
    ensures w.Some? <==> currency.Some?
    ensures currency.Some? ==> Models.QueryPairs(w.value) == [("curr_abbr", Models.AsCode(currency.value))]
    ensures currency.Some? ==> Models.ParseCurrency(Models.QueryPairs(w.value)[0].1) == currency
  {
    match currency
    case None => Option.None
    case Some(c) =>
      Models.CurrencyCodec(c, Models.AsCode(c));
      Some([("curr_abbr", Str(Models.AsCode(c)))])
  }

  function ReleasePath(releaseId: U64): string {
    "/releases/" + DecimalString(releaseId)
  }

  function RatingPath(releaseId: U64, encode: Encoder, username: string): string {
    ReleasePath(releaseId) + "/rating/" + encode(username)
  }

  /** A read open to everyone: GET, no body, decoded as JSON. */
  predicate PublicRead(e: Endpoint) {
    e.call.verb == GET && e.call.required == AuthLevel.None && e.call.body.None? && e.envelope == JsonEnvelope
  }

  // ---------------------------------------------------------------------
  // The operations

  /** `get_artist` */
  function GetArtist(artistId: U64): (e: Endpoint)
    ensures PublicRead(e) && e.call.query.None?
    ensures e.call.path == "/artists/" + DecimalString(artistId)
  {
    Endpoint(Call(GET, "/artists/" + DecimalString(artistId), Option.None, Option.None, AuthLevel.None), JsonEnvelope)
  }

  /** `get_artist_releases` */
  function GetArtistReleases(artistId: U64, query: Option<Models.SortedPageQuery>): (e: Endpoint)
    ensures PublicRead(e)
    ensures e.call.path == "/artists/" + DecimalString(artistId) + "/releases"
    ensures e.call.query.Some? <==> query.Some?
    ensures query.Some? ==> Models.SortedPageQueryFromJson(Object(e.call.query.value)) == query
  {
    Endpoint(Call(GET, "/artists/" + DecimalString(artistId) + "/releases", Models.WrittenSortedPageQuery(query),
                  Option.None, AuthLevel.None), JsonEnvelope)
  }

  /** `get_release`: the currency, when given, goes out as `curr_abbr` and
      reads back as that currency. */
  function GetRelease(releaseId: U64, currency: Option<Models.Currency>): (e: Endpoint)
    ensures PublicRead(e)
    ensures e.call.path == ReleasePath(releaseId)
    ensures e.call.query.Some? <==> currency.Some?
    ensures currency.Some? ==>
              && Models.QueryPairs(e.call.query.value) == [("curr_abbr", Models.AsCode(currency.value))]
              && Models.ParseCurrency(Models.QueryPairs(e.call.query.value)[0].1) == currency
  {
    Endpoint(Call(GET, ReleasePath(releaseId), CurrencyQuery(currency), Option.None, AuthLevel.None), JsonEnvelope)
  }

  /** `get_release_rating` */
  function GetReleaseRating(releaseId: U64, encode: Encoder, username: string): (e: Endpoint)
    ensures PublicRead(e) && e.call.query.None?
    ensures e.call.path == RatingPath(releaseId, encode, username)
  {
    Endpoint(Call(GET, RatingPath(releaseId, encode, username), Option.None, Option.None, AuthLevel.None), JsonEnvelope)
  }

  /** `set_release_rating`: PUT of the clamped rating, for the owner. */
  function SetReleaseRating(releaseId: U64, encode: Encoder, username: string, rating: U8): (e: Endpoint)
    ensures e.call.verb == PUT && e.call.required == AuthLevel.User && e.envelope == JsonEnvelope
    ensures e.call.path == RatingPath(releaseId, encode, username) && e.call.query.None?
    ensures e.call.body.Some? && Get(e.call.body.value, "rating") == Some(Json.Number(ClampRating(rating)))
  {
    Endpoint(Call(PUT, RatingPath(releaseId, encode, username), Option.None, Some(RatingBody(ClampRating(rating))),
                  AuthLevel.User), JsonEnvelope)
  }

  /** `delete_release_rating`: DELETE, for the owner; the answer is not read. */
  function DeleteReleaseRating(releaseId: U64, encode: Encoder, username: string): (e: Endpoint)
    ensures e.call.verb == DELETE && e.call.required == AuthLevel.User && e.envelope == EmptyEnvelope
    ensures e.call.path == RatingPath(releaseId, encode, username)
    ensures e.call.query.None? && e.call.body.None?
  {
    Endpoint(Call(DELETE, RatingPath(releaseId, encode, username), Option.None, Option.None, AuthLevel.User), EmptyEnvelope)
  }

  /** `get_release_community_rating` */
  function GetReleaseCommunityRating(releaseId: U64): (e: Endpoint)
    ensures PublicRead(e) && e.call.query.None?
    ensures e.call.path == ReleasePath(releaseId) + "/rating"
  {
    Endpoint(Call(GET, ReleasePath(releaseId) + "/rating", Option.None, Option.None, AuthLevel.None), JsonEnvelope)
  }

  /** `get_release_stats` */
  function GetReleaseStats(releaseId: U64): (e: Endpoint)
    ensures PublicRead(e) && e.call.query.None?
    ensures e.call.path == ReleasePath(releaseId) + "/stats"
  {
    Endpoint(Call(GET, ReleasePath(releaseId) + "/stats", Option.None, Option.None, AuthLevel.None), JsonEnvelope)
  }

  /** `get_master` */
  function GetMaster(masterId: U64): (e: Endpoint)
    ensures PublicRead(e) && e.call.query.None?
    ensures e.call.path == "/masters/" + DecimalString(masterId)
  {
    Endpoint(Call(GET, "/masters/" + DecimalString(masterId), Option.None, Option.None, AuthLevel.None), JsonEnvelope)
  }

  /** `get_master_versions` */
  function GetMasterVersions(masterId: U64, query: Option<Models.MasterVersionsQuery>): (e: Endpoint)
    ensures PublicRead(e)
    ensures e.call.path == "/masters/" + DecimalString(masterId) + "/versions"
    ensures e.call.query.Some? <==> query.Some?
    ensures query.Some? ==> Models.MasterVersionsQueryFromJson(Object(e.call.query.value)) == query
  {
    Endpoint(Call(GET, "/masters/" + DecimalString(masterId) + "/versions", Models.WrittenMasterVersionsQuery(query),
                  Option.None, AuthLevel.None), JsonEnvelope)
  }

  /** `get_label` */
  function GetLabel(labelId: U64): (e: Endpoint)
    ensures PublicRead(e) && e.call.query.None?
    ensures e.call.path == "/labels/" + DecimalString(labelId)
  {
    Endpoint(Call(GET, "/labels/" + DecimalString(labelId), Option.None, Option.None, AuthLevel.None), JsonEnvelope)
  }

  /** `get_label_releases` */
  function GetLabelReleases(labelId: U64, query: Option<Models.PaginationParams>): (e: Endpoint)
    ensures PublicRead(e)
    ensures e.call.path == "/labels/" + DecimalString(labelId) + "/releases"
    ensures e.call.query.Some? <==> query.Some?
    ensures query.Some? ==> Models.PaginationFromJson(Object(e.call.query.value)) == query
  {
    Endpoint(Call(GET, "/labels/" + DecimalString(labelId) + "/releases", Models.WrittenPagination(query),
                  Option.None, AuthLevel.None), JsonEnvelope)
  }

  /** `search`: needs at least consumer credentials. */
  function Search(query: Option<Models.SearchQuery>): (e: Endpoint)
    ensures e.call.verb == GET && e.call.required == AuthLevel.Consumer && e.envelope == JsonEnvelope
    ensures e.call.path == "/database/search" && e.call.body.None?
    ensures e.call.query.Some? <==> query.Some?
    ensures query.Some? ==> Models.SearchQueryFromJson(Object(e.call.query.value)) == query
  {
    Endpoint(Call(GET, "/database/search", Models.WrittenSearchQuery(query), Option.None, AuthLevel.Consumer), JsonEnvelope)
  }

  // ---------------------------------------------------------------------
  // Properties

  /** Whatever rating is asked for, the body carries one from 1 to 5, and
      a rating already in range is sent unchanged. */
  lemma RatingSentInRange(releaseId: U64, encode: Encoder, username: string, rating: U8)
    ensures var body := SetReleaseRating(releaseId, encode, username, rating).call.body.value;
      exists c: U8 :: 1 <= c <= 5 && Get(body, "rating") == Some(Json.Number(c))
                      && (1 <= rating <= 5 ==> c == rating)
  {
    var c := ClampRating(rating);
    assert Get(SetReleaseRating(releaseId, encode, username, rating).call.body.value, "rating") == Some(Json.Number(c));
  }

  /** Without credentials, a search fails with `AuthRequired(Consumer,
      None)` and nothing is sent. */
  lemma SearchNeedsConsumer(config: ClientConfig, query: Option<Models.SearchQuery>, network: Network)
    requires config.auth.None?
    ensures Send(config, Search(query).call, network)
            == Dispatch([], [], Failure(AuthRequired(AuthLevel.Consumer, AuthLevel.None)))
  {
  }

  /** With any credentials a search is sent, and every request it sends
      carries the credentials' `Authorization` header. */
  lemma SearchWithCredentialsIsSent(config: ClientConfig, query: Option<Models.SearchQuery>, network: Network)
    requires !config.auth.None?
    ensures var d := Send(config, Search(query).call, network);
      && |d.sent| >= 1
      && forall i :: 0 <= i < |d.sent| ==>
           HeaderValue(d.sent[i].headers, AUTHORIZATION) == AuthorizationHeader(config.auth, network(i).nonce, network(i).timestamp)
           && HeaderValue(d.sent[i].headers, AUTHORIZATION).Some?
  {
    var call := Search(query).call;
    var d := Send(config, call, network);
    SendBound(config, call, network);
    forall i | 0 <= i < |d.sent|
      ensures HeaderValue(d.sent[i].headers, AUTHORIZATION) == AuthorizationHeader(config.auth, network(i).nonce, network(i).timestamp)
      ensures HeaderValue(d.sent[i].headers, AUTHORIZATION).Some?
    {
      BuildRequestHeaders(config, call, network(i).nonce, network(i).timestamp);
    }
  }

  /** The public reads go out even without credentials. */
  lemma PublicReadsNeedNoCredentials(config: ClientConfig, e: Endpoint, network: Network)
    requires PublicRead(e)
    ensures |Send(config, e.call, network).sent| >= 1
  {
    SendBound(config, e.call, network);
  }

  /** Distinct releases are addressed by distinct paths. */
  lemma ReleasePathInjective(r: U64, s: U64)
    ensures ReleasePath(r) == ReleasePath(s) ==> r == s
  {
    var prefix := "/releases/";
    if ReleasePath(r) == ReleasePath(s) {
      assert DecimalString(r) == ReleasePath(r)[|prefix|..];
      assert DecimalString(s) == ReleasePath(s)[|prefix|..];
      DecimalStringInjective(r, s);
    }
  }
}
