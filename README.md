# discogs-rs core, modelled in Dafny

discogs-rs is an asynchronous Rust client for the Discogs REST API. This
project models the client's decision logic and proves properties of it:

- the credential model: three capability tiers `None < Consumer < User`,
  four ways to authenticate, and the exact `Authorization` and `Accept`
  values each one sends;
- the request dispatcher:
  - the builder defaults;
  - the admission check made before anything is sent;
  - URL resolution;
  - the bounded retry on HTTP 429 with exponential backoff;
  - all-or-nothing rate-limit extraction;
  - the choice of error message for a failed response;
  - the three response envelopes (JSON, empty, bytes);
- the OAuth 1.0a handshake: the PLAINTEXT-signed headers of section 3.4.4
  of RFC 5849, in the `OAuth` header form of section 3.5.1, the nonce
  filter, and how request-token and access-token replies are read;
- the wire codecs of the model types: `Currency` codes, the serde names of
  the enums, the untagged `NumberOrAuto`, and the query structs, with their
  renames, flattened pagination and omit-if-`None` rule;
- the collection and database endpoints: for each operation, its method,
  path, query, body, required tier and envelope. This covers the
  folder-0-is-public rule, the default folder 1, the rating clamp and the
  Consumer tier that search needs.

The modules, in dependency order:

| file | module | models |
|---|---|---|
| wrappers.dfy | Wrappers | `Option`, `Result` |
| text.dfy | Text | `u8`/`u32`/`u64`, decimal printing and `u32` parsing, `trim_end_matches('/')`, ASCII case mapping |
| json.dfy | JsonValues | `serde_json::Value` with `get`, `as_str` and compact `to_string` |
| http.dfy | Http | methods, status codes, header lookup, the request sent, the `encode_path` parameter type |
| oauth_signing.dfy | OAuthSigning | `nonce_safe`, the three OAuth header templates, reading an OAuth header back |
| credentials.dfy | Credentials | src/auth.rs |
| errors.dfy | Errors | src/error.rs |
| models.dfy | Models | src/models.rs (wire side) |
| oauth_handshake.dfy | OAuthHandshake | `request_token`, `access_token`, `parse_oauth_form` |
| client.dfy | Client | src/client.rs |
| collection.dfy | Collection | src/endpoints/collection.rs |
| database.dfy | Database | src/endpoints/database.rs |

How the model is put together:

- **The network is an oracle.** A `Network` maps attempt number `k` to
  three things: the nonce and clock reading an OAuth header would use on
  that attempt, and the server's answer (a response or a transport
  failure).
- **The retry loop is proved against a specification.**
  `Client.SendWithRetry` is a `while` loop with the source's mutable
  attempt counter. Its result equals the function `Client.Send`, which
  records three things: every request sent, every delay slept, and the
  outcome. The lemmas about the loop are stated on `Send`.
- **Endpoints are values.** Each endpoint operation is a single delegation
  to the dispatcher. It is modelled as the `Endpoint` value it hands over,
  and the lemmas connect those values to `Send`.
- **The builder is a class.** The builder's setters overwrite fields in
  place, so `Client.ClientBuilder` is a class with `modifies` clauses on
  its setters.

Two behaviours of the code worth noting:

- A 2xx body that cannot be decoded fails in reqwest's `json()`. It
  surfaces as `DiscogsError::Request` (here `Request(Decode)`), not as the
  `Json` parse error.
- `absolute_url` keeps a path's own leading slashes. It does not
  normalise them to exactly one: the path `//x` yields `base//x`. The
  lemma `AbsoluteUrlJoinsWithOneSlash` states what it does.

## Model

| member | source | states |
|---|---|---|
| Text.DecimalString | src/endpoints/database.rs:29 | an id is printed as at least one ASCII digit, with no sign and no leading zero |
| Text.DigitsValueOfDecimal | src/endpoints/database.rs:29 | reading the printed digits back gives the number |
| Text.DecimalStringInjective | src/endpoints/collection.rs:47-50 | distinct ids print differently |
| Text.ParseU32 | src/client.rs:329-334 | `u32` parsing: with one optional leading `+` removed, a value comes back exactly when the rest is a non-empty run of ASCII digits worth at most 2^32 − 1, and the value is what those digits denote |
| Text.ParseU32RejectsMinus | src/client.rs:329-334 | a value beginning with `-` never parses |
| Text.ParseU32OfDecimal | src/client.rs:329-334 | every 32-bit value printed in decimal parses back to itself |
| Text.TrimTrailingSlashes | src/client.rs:309 | gives a prefix that does not end in `/`; only slashes were removed |
| Text.ToAsciiUpper | src/models.rs:614-629 | upper-cases each character in place; the length is unchanged |
| Text.ToAsciiLower | src/models.rs:1166-1180 | lower-cases each character in place; the length is unchanged |
| JsonValues.Member | src/client.rs:358-360 | finds a value exactly when some member has the key; the value found belongs to such a member |
| JsonValues.Get | src/client.rs:359 | on an object, the member stored under the key; any other value has none |
| JsonValues.AsStr | src/client.rs:360 | gives a string exactly for a JSON string, and that string is the JSON string's text |
| JsonValues.Render | src/client.rs:361 | `Value::to_string`: `null`, `true`/`false` and integers in decimal (with a `-` when negative) exactly; a string in double quotes, an array in brackets and an object in braces |
| Http.HeaderValue | src/client.rs:329-330 | finds a value exactly when some header has the name, and the value is that of the first header with the name |
| Http.IsSuccess | src/client.rs:281-290 | a success status is never 429, so the retry branch and the success branch cannot both apply |
| OAuthSigning.NonceSafe | src/oauth.rs:160-165 | output is all alphanumeric, and no longer than the input |
| OAuthSigning.NonceSafeMembers | src/oauth.rs:160-165 | a character survives exactly when it is in the nonce and alphanumeric |
| OAuthSigning.NonceSafeAppend | src/oauth.rs:160-165 | filtering keeps order: it distributes over concatenation |
| OAuthSigning.NonceSafeIdentity | src/oauth.rs:160-165 | alphanumeric input passes through unchanged |
| OAuthSigning.NonceSafeIdempotent | src/oauth.rs:160-165 | filtering twice equals filtering once |
| OAuthSigning.ValidNonceIsSafe | src/oauth.rs:182-188 | the 64-character alphanumeric nonce `oauth_nonce` makes is sent unchanged |
| OAuthSigning.SplitAtFirst | src/oauth.rs:168-180 | splitting at the first delimiter recovers the text on either side when the first part does not contain it |
| OAuthSigning.ParseJoinParams | src/oauth.rs:168-180 | a non-empty list of `name="value"` parameters joined by `, ` reads back as that list |
| OAuthSigning.ParseHeaderOfReadable | src/oauth.rs:168-180 | an `OAuth …` header of readable parameters reads back as its parameter list |
| OAuthSigning.ParseHeader | src/oauth.rs:168-180 | a header that reads back starts with `OAuth ` and holds at least one parameter |
| OAuthSigning.ApiCallParams | src/oauth.rs:168-180 | eight parameters, each named with the `oauth_` prefix; the signature ends in `&` and the access token secret |
| OAuthSigning.RequestTokenHeader | src/oauth.rs:52-59 | the header starts with `OAuth oauth_consumer_key="<key>", ` and ends with `oauth_callback="<callback>"` |
| OAuthSigning.AccessTokenHeader | src/oauth.rs:113-122 | the header starts with `OAuth oauth_consumer_key="<key>", ` and ends with `oauth_verifier="<verifier>"` |
| OAuthSigning.BuildOAuthHeader | src/oauth.rs:168-180 | the header starts with `OAuth oauth_consumer_key="<key>", ` and ends with `oauth_version="1.0"`; BuildOAuthHeaderReadsBack gives the full parameter order |
| OAuthSigning.RequestTokenHeaderReadsBack | src/oauth.rs:52-59 | the `request_token` header holds, in template order: consumer key, filtered nonce, signature `secret&`, `PLAINTEXT`, timestamp, callback |
| OAuthSigning.AccessTokenHeaderReadsBack | src/oauth.rs:113-122 | the `access_token` header holds, in template order: key, filtered nonce, request token, signature `secret&token_secret`, `PLAINTEXT`, timestamp, verifier |
| OAuthSigning.BuildOAuthHeaderReadsBack | src/oauth.rs:168-180 | the API-call header holds its eight parameters in order, ending with `oauth_token_secret` and `oauth_version="1.0"` |
| OAuthSigning.RequestTokenRequest | src/oauth.rs:61-68 | a GET to `…/oauth/request_token` carrying the user agent, the form content type and the signed header, with no query or body |
| OAuthSigning.AccessTokenRequest | src/oauth.rs:124-131 | a POST to `…/oauth/access_token` carrying the user agent, the form content type and the signed header |
| Credentials.Rank | src/auth.rs:3-8 | a helper giving each tier its declaration position; the order it induces is stated by LevelOrderIsTotal |
| Credentials.LevelOrderIsTotal | src/auth.rs:3-8 | `None < Consumer < User`; any two levels are comparable; the order is strict |
| Credentials.LevelOrderIsTransitive | src/auth.rs:3-8 | from `a < b < c` it follows that `a < c`, and these can only be None and User |
| Credentials.Below | src/auth.rs:3-8 | `a < b` only between distinct levels, never from User and never up to None |
| Credentials.DefaultAuth | src/auth.rs:28-32 | the default credentials are at tier None |
| Credentials.Level | src/auth.rs:35-41 | None maps to None, `Discogs` to Consumer, `UserToken` and `OAuth` to User; each stated both ways |
| Credentials.AuthorizationHeader | src/auth.rs:43-65 | there is no header exactly when the level is None |
| Credentials.HeaderRevealsLevel | src/auth.rs:43-65 | two credentials that send the same header are at the same tier and use the same scheme |
| Credentials.HeaderKind | src/auth.rs:46-63 | the three header forms start with `Discogs t…`, `Discogs k…` and `OAuth` respectively |
| Credentials.UserTokenHeaderShape | src/auth.rs:46 | the header is `Discogs token=` followed by exactly the token |
| Credentials.UserTokenHeaderInjective | src/auth.rs:46 | the token can be recovered from its header |
| Credentials.UserTokenHeaderExample | src/auth.rs:125-133 | `abc123` is sent as `Discogs token=abc123` |
| Credentials.ConsumerHeaderShape | src/auth.rs:47-52 | the header is `Discogs key=`, the key, `, secret=`, then the secret |
| Credentials.OAuthHeaderCarriesCredentials | src/auth.rs:53-63 | full OAuth sends the `build_oauth_header` of key, secret, token and token secret, in that order |
| Credentials.DefaultOutputFormat | src/auth.rs:68-75 | the default format asks for `application/vnd.discogs.v2.discogs+json` |
| Credentials.OutputFormatName | src/auth.rs:68-75 | the `snake_case` name of a format: at least four lower-case letters |
| Credentials.AcceptHeaderValue | src/auth.rs:77-85 | each format asks for `application/vnd.discogs.v2.`, its `snake_case` name, then `+json` |
| Credentials.AcceptHeaderInjective | src/auth.rs:108-122 | the three formats ask for three distinct media types |
| Credentials.ParseOutputFormat | src/auth.rs:68-75 | a format name that is accepted names that format |
| Credentials.OutputFormatRoundTrip | src/auth.rs:68-75 | every format's snake_case name reads back as that format |
| Models.AsCode | src/models.rs:631-648 | every currency code is three upper-case letters |
| Models.AsCodeIsSerdeName | src/models.rs:614-629 | `as_code` equals the serde `UPPERCASE` name |
| Models.ParseCurrency | src/models.rs:614-629 | a code that is accepted is that currency's code |
| Models.CurrencyCodec | src/models.rs:614-648 | decoding a string gives currency c exactly when the string is c's code |
| Models.AsCodeInjective | src/models.rs:631-648 | the twelve codes are distinct |
| Models.SortOrderLabel | src/models.rs:1166-1171 | the label is the Rust variant name in lower case |
| Models.SortOrderCodec | src/models.rs:1166-1171 | decoding gives the order exactly when the string is its label |
| Models.ParseSortOrder | src/models.rs:1166-1171 | a string that is accepted is that order's label |
| Models.SearchTypeLabel | src/models.rs:1173-1180 | the label is the Rust variant name in lower case |
| Models.SearchTypeCodec | src/models.rs:1173-1180 | decoding gives the type exactly when the string is its label |
| Models.ParseSearchType | src/models.rs:1173-1180 | a string that is accepted is that type's label |
| Models.DatabaseStatusLabel | src/models.rs:1182-1188 | each label is a single capitalised word of at least five letters; DatabaseStatusCodec ties it to parsing |
| Models.ParseDatabaseStatus | src/models.rs:1182-1188 | a string that is accepted is that status's label |
| Models.DatabaseStatusCodec | src/models.rs:1182-1188 | decoding gives the status exactly when the string is its variant name |
| Models.ParseSaleStatus | src/models.rs:1190-1196 | a string that is accepted is that status's label |
| Models.SaleStatusLabel | src/models.rs:1190-1196 | only `ForSale` is renamed to a label with a space in it (`For Sale`) |
| Models.SaleStatusCodec | src/models.rs:1190-1196 | decoding gives the status exactly when the string is its label; `ForSale` travels as `For Sale` and the Rust name is refused |
| Models.ParseMediaCondition | src/models.rs:1198-1216 | a string that is accepted is that grade's label |
| Models.MediaConditionCodec | src/models.rs:1198-1216 | decoding gives the grade exactly when the string is its label, so the 8 labels are distinct |
| Models.MediaConditionLabel | src/models.rs:1198-1216 | every media grade's label ends with `)` |
| Models.ParseSleeveCondition | src/models.rs:1218-1241 | a string that is accepted is that grade's label |
| Models.SleeveConditionCodec | src/models.rs:1218-1241 | decoding gives the grade exactly when the string is its label, so the 11 labels are distinct |
| Models.SleeveConditionLabel | src/models.rs:1218-1241 | a sleeve label ends with `)` exactly when it is not `Generic`, `Not Graded` or `No Cover` |
| Models.SleeveGradeKeepsLabel | src/models.rs:1198-1241 | each media grade has the same label as a sleeve grade |
| Models.SleeveOnlyLabels | src/models.rs:1218-1241 | a sleeve label is not a media label exactly for `Generic`, `Not Graded` and `No Cover` |
| Models.ParseOrderStatus | src/models.rs:1243-1264 | a string that is accepted is that status's label |
| Models.OrderStatusCodec | src/models.rs:1243-1264 | decoding gives the status exactly when the string is its label, so the 10 labels are distinct |
| Models.OrderStatusLabel | src/models.rs:1243-1264 | a label starts with `Cancelled (` exactly for the three cancelled statuses |
| Models.NumberOrAutoToJson | src/models.rs:1266-1271 | `Number` is written as a JSON number and `Auto` as a JSON string |
| Models.NumberOrAutoFromJson | src/models.rs:1266-1271 | untagged decoding: whatever is accepted is written back as the same JSON |
| Models.NumberOrAutoRoundTrip | tests/serde_roundtrip_models.rs:137-141 | both variants survive writing and reading back |
| Models.Entries | src/models.rs:1301-1341 | a written struct has no more members than fields, and only field keys |
| Models.Lookups | src/models.rs:1301-1341 | reading a struct back looks up each field by its key |
| Models.MemberOfEntries | src/models.rs:1301-1341 | a written field is found under its key with its value; a `None` field is absent |
| Models.LookupsOfEntries | src/models.rs:1301-1341 | writing a struct with distinct keys and reading it back by key gives the field values back |
| Models.StrField | src/models.rs:1301-1341 | reading an `Option<String>` field: an absent or null field is `None`, and what is accepted re-encodes to the input |
| Models.NumField | src/models.rs:1158-1164 | the same for `Option<u32>` fields |
| Models.BoolField | src/models.rs:1365-1381 | the same for `Option<bool>` fields |
| Models.SortOrderField | src/models.rs:1166-1171 | the same for `Option<SortOrder>` fields |
| Models.FieldsRoundTrip | src/models.rs:1158-1381 | each field decoder inverts its encoder |
| Models.PaginationRoundTrip | src/models.rs:1158-1164 | pagination survives writing and reading back |
| Models.PaginationToJson | src/models.rs:1158-1164 | an object whose members are only the wire keys `page` and `per_page` |
| Models.PaginationFromJson | src/models.rs:1158-1164 | pagination is read only from a JSON object |
| Models.SearchKeysDistinct | src/models.rs:1301-1341 | the 20 wire keys of `SearchQuery` are distinct |
| Models.SearchQueryRoundTrip | tests/serde_roundtrip_models.rs:143-194 | every search query survives writing and reading back |
| Models.SearchQueryOmitsNone | src/models.rs:1301-1341 | each field appears under its wire key exactly when it is set, with its value |
| Models.SearchQueryRenames | src/models.rs:1301-1341 | `query` travels as `q`, and `query_type` as `type` under its lower-case label |
| Models.SearchQueryFlattensPagination | src/models.rs:1301-1341 | `page` and `per_page` sit in the search object itself |
| Models.SearchQueryToJson | src/models.rs:1301-1341 | an object whose members are only the twenty wire keys |
| Models.SearchQueryFromJson | src/models.rs:1301-1341 | a search query is read only from a JSON object |
| Models.OrdersQueryRoundTrip | tests/serde_roundtrip_models.rs:229-256 | every orders query survives writing and reading back |
| Models.OrdersQueryOmitsNone | src/models.rs:1365-1381 | each orders field appears under its wire key exactly when it is set |
| Models.OrdersQueryExample | tests/serde_roundtrip_models.rs:229-256 | the test's orders query is written with the expected value under each of its eight keys |
| Models.OrdersQueryToJson | src/models.rs:1365-1381 | an object whose members are only the eight wire keys |
| Models.OrdersQueryFromJson | src/models.rs:1365-1381 | an orders query is read only from a JSON object |
| Models.SortedPageQueryRoundTrip | src/models.rs:1273-1281 | the artist-releases and collection-releases query survives writing and reading back |
| Models.SortedPageQueryToJson | src/models.rs:1273-1281 | an object whose members are only the four wire keys |
| Models.SortedPageQueryFromJson | src/models.rs:1273-1281 | the query is read only from a JSON object |
| Models.MasterVersionsQueryRoundTrip | src/models.rs:1283-1299 | the master-versions query survives writing and reading back |
| Models.MasterVersionsQueryToJson | src/models.rs:1283-1299 | an object whose members are only the eight wire keys |
| Models.MasterVersionsQueryFromJson | src/models.rs:1283-1299 | the query is read only from a JSON object |
| Models.WrittenPagination | src/client.rs:270-272 | a query is attached exactly when one is given, and it reads back as that query |
| Models.WrittenSortedPageQuery | src/client.rs:270-272 | the same for the sorted page query |
| Models.WrittenMasterVersionsQuery | src/client.rs:270-272 | the same for the master-versions query |
| Models.WrittenSearchQuery | src/client.rs:270-272 | the same for the search query |
| Models.QueryPairs | src/client.rs:270-272 | one query pair per written member, in field order, holding the member's value as text |
| Models.QueryText | src/client.rs:270-272 | a string is written as its text, a non-negative number as its decimal digits, a boolean as `true` or `false` |
| Models.PageQueryPairReadsBack | src/client.rs:270-272 | a written page goes out as the first query pair, named `page`, and its text parses back as a `u32` to the page |
| Models.AddFolderRequestToJson | src/models.rs:1435-1438 | the body's `name` is the folder name |
| Models.EditCollectionReleaseRequestToJson | src/models.rs:1450-1456 | `rating` and `folder_id` appear exactly when they are set |
| Models.EditInstanceNoteRequestToJson | src/models.rs:1458-1461 | the body's `value` is the note text |
| Client.DefaultRetry | src/client.rs:22-30 | no retries, a 2000 ms base delay and a factor of 2.7 |
| Client.DefaultConfig | src/client.rs:95-106 | the default base URL, the user agent given, the Discogs format, no credentials, and the default retry policy (no retries, 2000 ms, factor 2.7) |
| Client.ClientBuilder.constructor | src/client.rs:95-106 | the builder starts from the default configuration and a 30 s timeout |
| Client.ClientBuilder.SetBaseUrl | src/client.rs:53-56 | replaces the base URL and nothing else |
| Client.ClientBuilder.SetAuth | src/client.rs:58-61 | replaces the credentials and nothing else |
| Client.ClientBuilder.SetUserToken | src/client.rs:63-68 | installs a personal token and nothing else; the client is then at tier User |
| Client.ClientBuilder.SetOutputFormat | src/client.rs:70-73 | replaces the output format and nothing else |
| Client.ClientBuilder.SetRetry | src/client.rs:75-78 | replaces the retry settings and nothing else |
| Client.ClientBuilder.SetTimeout | src/client.rs:80-83 | replaces the timeout and leaves the configuration as it was |
| Client.ClientBuilder.Build | src/client.rs:85-91 | the client holds the configuration and timeout as built |
| Client.DefaultUserAgent | src/client.rs:108-114 | the agent is `discogs-rs/`, then the version, then ` +https://github.com/your-org/discogs-rs` |
| Client.WithDefaultUserAgent | src/client.rs:108-114 | a fresh builder with the default agent and defaults |
| Client.WithUserToken | src/client.rs:116-121 | default configuration plus the token; tier User |
| Client.WithDefaultUserAgentAndUserToken | src/client.rs:123-127 | default agent, default config and the token; 30 s timeout; tier User |
| Client.AuthLevelOf | src/client.rs:129-131 | the client's tier is None exactly when it holds no credentials |
| Client.EnsureAuth | src/client.rs:296-302 | fails exactly when the current level is below the required one, with `AuthRequired(required, current)` |
| Client.AdmissionIsMonotone | src/client.rs:296-302 | admission at a tier implies admission at every lower tier; User passes everywhere, no credentials only at None |
| Client.AbsoluteUrl | src/client.rs:304-316 | an `http://` or `https://` path is returned as given |
| Client.AbsoluteUrlJoinsWithOneSlash | src/client.rs:304-316 | a relative path becomes the trimmed base, one `/`, then the path without its first `/` |
| Client.AbsoluteUrlIgnoresTrailingSlash | src/client.rs:309 | a trailing slash on the base makes no difference |
| Client.AbsoluteUrlIdempotent | src/client.rs:304-316 | with an `https` base, resolving twice equals resolving once |
| Client.RoundHalfAway | src/client.rs:322 | `2qr <= 2p + q < 2qr + 2q`: the result is the one integer within half a unit of `p / q`, a half rounding up (away from zero) |
| Client.RetryDelay | src/client.rs:319-324 | the delay is at least 1 ms and fits in `u64` |
| Client.RetryDelayWholeFactor | src/client.rs:319-324 | with a whole-number factor the delay is base times factor to the power of the attempt, floored at 1 |
| Client.RetryDelayDoubling | src/client.rs:375-386 | base 100 ms with factor 2 gives 100, 200 and 400 ms |
| Client.DefaultRetryDelays | src/client.rs:22-30 | the defaults give 2000, 5400 and 14580 ms |
| Client.RetryDelayFloor | src/client.rs:323 | a zero base delay still waits 1 ms |
| Client.HeaderU32 | src/client.rs:329-334 | no value when the header is absent; when it is present, exactly the `u32` parse of its value |
| Client.ParseRateLimit | src/client.rs:326-353 | a snapshot exists exactly when all three headers parse, and holds the three parsed values |
| Client.RateLimitRoundTrip | tests/http_client_behavior.rs:63-97 | a snapshot sent in the three headers, followed by any others, reads back exactly |
| Client.RateLimitAllOrNothing | src/client.rs:326-353 | one missing or malformed header means no snapshot at all |
| Client.HttpError | src/client.rs:355-367 | keeps the status; the message is the string `message`, else the compact JSON, else `unknown error` |
| Client.RequestHeadersFound | src/client.rs:260-268 | user agent and accept are present; `authorization` is present exactly when given |
| Client.BuildRequest | src/client.rs:260-275 | sends the call's method, the resolved URL, the call's body and the written query |
| Client.RequestHeaders | src/client.rs:260-275 | the user agent first and `Accept` second, then one header each for credentials and a JSON body when present |
| Client.BuildRequestHeaders | src/client.rs:260-268 | every request carries the user agent, the format's `Accept`, and the credentials' header exactly when there are credentials |
| Client.Delays | src/client.rs:281-284 | the `i`-th sleep is the backoff for attempt `i` |
| Client.Requests | src/client.rs:260-277 | the `i`-th request is built from attempt `i`'s nonce and timestamp |
| Client.RetryFrom | src/client.rs:258-292 | the loop from one attempt on ends in an error only as an `Http` error or a transport failure, never anything else |
| Client.Send | src/client.rs:243-294 | an `AuthRequired` result comes with nothing sent and nothing slept (the check precedes the loop) |
| Client.SendWithRetry | src/client.rs:243-294 | the loop sends, sleeps and returns exactly what `Send` specifies |
| Client.RetryFromBound | src/client.rs:281 | the loop retries at most `max_retries - attempt` times |
| Client.SendBound | src/client.rs:255-294 | at most `max_retries + 1` sends, one more send than sleep, sleeps only after a 429; nothing is sent exactly when admission fails, and then the result is `AuthRequired` |
| Client.RetryFromRetriesOn429 | src/client.rs:281-286 | every attempt before the last received a 429 |
| Client.RetryFromSuccess | src/client.rs:288-290 | a success is the last attempt's 2xx response |
| Client.AlwaysTooManyRequests | src/client.rs:281-292 | constant 429s use the whole budget and end in `Http` 429 |
| Client.FinalStatus | src/client.rs:288-292 | any status other than 429 ends the loop at once: the response on 2xx, otherwise `http_error` |
| Client.NeedsUserSendsNothing | tests/http_client_behavior.rs:149-164 | a call that needs User, made below User, sends nothing and reports both tiers |
| Client.SendSucceedsOnlyOn2xx | src/client.rs:288-290 | a successful dispatch always has a 2xx status |
| Client.RequestJson | src/client.rs:177-197 | passes errors through; a 2xx response whose body decodes gives `Success` with that body and the response's snapshot; an unreadable or undecodable body is a `Request` error |
| Client.RequestEmpty | src/client.rs:199-220 | passes errors through; on success gives only the snapshot |
| Client.RequestBytes | src/client.rs:222-241 | passes errors through; a 2xx response with a readable body gives `Success` with its raw bytes and the response's snapshot; an unreadable body is a `Request` error |
| Client.RequestJsonOnlyOn2xx | src/client.rs:177-197 | a decoded body only ever comes from a 2xx response |
| Client.RequestJsonCarriesRateLimit | tests/http_client_behavior.rs:63-97 | a 2xx JSON response with the three headers gives its body and that snapshot |
| Client.About | src/client.rs:133-136 | GET `/`, tier None, JSON envelope |
| Client.GetIdentity | src/client.rs:138-147 | GET `/oauth/identity`, tier User, JSON envelope |
| Client.IdentityNeedsUser | tests/http_client_behavior.rs:149-164 | with no credentials `get_identity` sends nothing and fails with `AuthRequired(User, None)` |
| Client.IdentityForwardsToken | tests/http_client_behavior.rs:100-147 | every request sent with a personal token carries `Discogs token=` and the token |
| Client.RetryOnceThenSucceed | tests/http_client_behavior.rs:29-98 | a 429 then a 200, with one retry allowed: two sends, one 1 ms sleep, the 200 returned |
| OAuthHandshake.ParseOAuthForm | src/oauth.rs:197-201 | every key of the map is the name of some pair |
| OAuthHandshake.FormHasEveryName | src/oauth.rs:197-201 | every name that occurs in the pairs is a key of the map |
| OAuthHandshake.FormLastWins | src/oauth.rs:197-201 | the value under a name is that of its last occurrence |
| OAuthHandshake.FormKeysOnly | src/oauth.rs:197-201 | a name that occurs in no pair is absent from the map |
| OAuthHandshake.ReplyForm | src/oauth.rs:61-81 | transport failure is a `Request` error; a non-2xx status is `Http` with the body text or `unknown error`; an unreadable 2xx body is a `Request` error; otherwise the form |
| OAuthHandshake.InterpretRequestToken | src/oauth.rs:70-101 | succeeds exactly when token and secret are both present, else `InvalidOAuthResponse(text)`; the callback is confirmed only by `true`; the authorize URL is built from the token |
| OAuthHandshake.InterpretAccessToken | src/oauth.rs:133-157 | succeeds exactly when token and secret are both present, and hands over that pair; otherwise `InvalidOAuthResponse(text)` |
| OAuthHandshake.RequestTokenCall | src/oauth.rs:46-102 | a GET; a token comes back only from a 2xx reply, with the authorize URL built from that token |
| OAuthHandshake.AccessTokenCall | src/oauth.rs:104-158 | a POST; an access token comes back only from a 2xx reply |
| OAuthHandshake.RequestTokenSends | src/oauth.rs:46-68 | whatever the reply, one GET to the request-token URL with the form content type and the signed header |
| OAuthHandshake.AccessTokenSends | src/oauth.rs:104-131 | whatever the reply, one POST to the access-token URL with the form content type and the signed header |
| OAuthHandshake.RequestTokenGranted | src/oauth.rs:83-101 | a reply holding token, secret and confirmation yields exactly those values and the authorize URL |
| OAuthHandshake.RequestTokenUnconfirmedByDefault | src/oauth.rs:91-94 | when `oauth_callback_confirmed` is missing, the callback is not confirmed |
| OAuthHandshake.RequestTokenNeedsSecret | src/oauth.rs:87-90 | a reply without a secret is rejected with its raw text, by both handshakes |
| OAuthHandshake.HandshakeErrorStatus | src/oauth.rs:70-77 | an error status is reported before the body is parsed |
| OAuthHandshake.AccessTokenGranted | src/oauth.rs:145-157 | the access-token exchange hands over the reply's token pair |
| OAuthHandshake.AccessTokenLaterPairWins | src/oauth.rs:197-201 | when a name is repeated, the later value is used |
| Collection.CollectionRoot | src/endpoints/collection.rs:20-33 | every collection path starts with `/users/` |
| Collection.FolderLevel | src/endpoints/collection.rs:40-44 | folder 0 needs no credentials; every other folder needs User |
| Collection.GetFolders | src/endpoints/collection.rs:20-33 | GET `…/folders`, tier None |
| Collection.GetFolder | src/endpoints/collection.rs:35-58 | GET of the folder path; tier None exactly for folder 0, User otherwise |
| Collection.AddFolder | src/endpoints/collection.rs:60-77 | POST `…/folders`, tier User, body `name` is the name given |
| Collection.SetFolderName | src/endpoints/collection.rs:79-97 | POST of the folder path, tier User, body `name` is the name given |
| Collection.DeleteFolder | src/endpoints/collection.rs:99-112 | DELETE of the folder path, tier User, empty envelope |
| Collection.GetReleases | src/endpoints/collection.rs:114-138 | folder-0-is-public rule; the query is attached exactly when given and reads back as given |
| Collection.GetReleaseInstances | src/endpoints/collection.rs:140-157 | GET `…/releases/{id}`, tier None |
| Collection.AddRelease | src/endpoints/collection.rs:159-178 | POST into the given folder or folder 1, tier User, body `{}` |
| Collection.EditRelease | src/endpoints/collection.rs:180-200 | POST of the instance path, tier User; `rating` and `folder_id` are sent only when set |
| Collection.RemoveRelease | src/endpoints/collection.rs:202-221 | DELETE of the instance path, tier User |
| Collection.GetFields | src/endpoints/collection.rs:223-236 | GET `…/fields`, tier None |
| Collection.EditInstanceNote | src/endpoints/collection.rs:238-263 | POST of the field path, tier User, body `value` is the string given |
| Collection.GetValue | src/endpoints/collection.rs:265-278 | GET `…/value`, tier User |
| Collection.FolderPathInjective | src/endpoints/collection.rs:47-50 | distinct folders have distinct paths |
| Collection.AddReleaseDefaultsToFolderOne | src/endpoints/collection.rs:165 | leaving out the folder is the same as naming folder 1 |
| Collection.OnlyFolderZeroIsPublic | src/endpoints/collection.rs:40-44 | without credentials a folder read is sent exactly for folder 0; any other folder gives `AuthRequired(User, None)` |
| Collection.OnlyFolderZeroReleasesArePublic | src/endpoints/collection.rs:120-124 | the same rule for listing a folder's releases |
| Collection.WritesNeedUser | src/endpoints/collection.rs:60-263 | all seven collection writes are not GET and need User |
| Collection.ValueNeedsUser | src/endpoints/collection.rs:265-278 | below User, `get_value` sends nothing |
| Database.ClampRating | src/endpoints/database.rs:103 | the result is in 1..5; identity on 1..5; 0 becomes 1; anything above 5 becomes 5 |
| Database.ClampIdempotent | src/endpoints/database.rs:103 | clamping twice equals clamping once |
| Database.RatingBody | src/endpoints/database.rs:98-101 | the body's `rating` is the rating given |
| Database.CurrencyQuery | src/endpoints/database.rs:58-63 | `curr_abbr` is sent exactly when a currency is given; its value is the code and reads back as the currency |
| Database.GetArtist | src/endpoints/database.rs:25-35 | public GET `/artists/{id}` |
| Database.GetArtistReleases | src/endpoints/database.rs:37-51 | public GET; the query is attached exactly when given and reads back as given |
| Database.GetRelease | src/endpoints/database.rs:53-73 | public GET `/releases/{id}`, with `curr_abbr` exactly when a currency is given |
| Database.GetReleaseRating | src/endpoints/database.rs:75-90 | public GET of the user's rating path |
| Database.SetReleaseRating | src/endpoints/database.rs:92-114 | PUT, tier User, body `rating` is the clamped rating |
| Database.DeleteReleaseRating | src/endpoints/database.rs:116-131 | DELETE, tier User, empty envelope |
| Database.GetReleaseCommunityRating | src/endpoints/database.rs:133-146 | public GET `…/rating` |
| Database.GetReleaseStats | src/endpoints/database.rs:148-158 | public GET `…/stats` |
| Database.GetMaster | src/endpoints/database.rs:160-170 | public GET `/masters/{id}` |
| Database.GetMasterVersions | src/endpoints/database.rs:172-186 | public GET; the query is attached exactly when given and reads back as given |
| Database.GetLabel | src/endpoints/database.rs:188-198 | public GET `/labels/{id}` |
| Database.GetLabelReleases | src/endpoints/database.rs:200-214 | public GET; pagination is attached exactly when given and reads back as given |
| Database.Search | src/endpoints/database.rs:216-226 | GET `/database/search`, tier Consumer; the query reads back as given |
| Database.RatingSentInRange | src/endpoints/database.rs:103-112 | the rating sent is always in 1..5, and unchanged if it was already in range |
| Database.SearchNeedsConsumer | src/endpoints/database.rs:223 | with no credentials a search sends nothing and fails with `AuthRequired(Consumer, None)` |
| Database.SearchWithCredentialsIsSent | src/endpoints/database.rs:216-226 | with any credentials a search is sent, and every request carries the credentials' header |
| Database.PublicReadsNeedNoCredentials | src/endpoints/database.rs:25-214 | every public read is sent even without credentials |
| Database.ReleasePathInjective | src/endpoints/database.rs:53-73 | distinct releases have distinct paths |

## Left out

- Sending, sleeping, the client timeout, TLS and building the reqwest
  client are I/O. They are replaced by the `Network` oracle, the recorded
  delays, and a timeout field that is only stored. A failure to build the
  reqwest client is not modelled.
- `Client.RetryDelay`: the `f64` arithmetic is not modelled bit for bit.
  - The backoff factor is the exact ratio `factorNum / factorDen`, and
    `round` is applied to the exact value.
  - `attempt as i32` is taken as the attempt itself, which differs only
    at 2^31 attempts or more.
- `f64` fields (`Price`, `CreateListingRequest.price`, rating averages)
  and the marketplace fee formatting are floating point.
  `CreateListingRequest` is therefore not modelled.
- JSON numbers are integers only. Floating-point JSON is not part of
  this model.
- Randomness and the clock are parameters:
  - `oauth_nonce` comes from rand and `oauth_timestamp_seconds` from
    `SystemTime`;
  - the nonce and the timestamp are passed in;
  - `ValidNonce` states the shape `oauth_nonce` produces.
- URL encoding is given as parameters rather than re-specified:
  - `form_urlencoded::byte_serialize` (the encoded callback), in
    `RequestTokenHeaderReadsBack` and the request-token header functions;
  - `form_urlencoded::parse` (the `decodeForm` function of the handshake);
  - `encode_path` (the `Encoder` parameter of the endpoint modules).
- Percent-encoding of query strings is the transport's business. A
  query is modelled as the pairs before encoding.
- serde_json decoding of the typed response structs is not modelled: the
  response body is given with its JSON reading, and `T` is reduced to
  that JSON value.
- `DiscogsError::Json` (named `JsonParse` here) exists in the datatype,
  but no modelled path produces it, just as in the code.
- The endpoint files that are only fixed (method, path, tier) tables are
  not part of this model: marketplace, inventory, user, user lists and
  wantlist.
- Sharing the configuration across concurrent calls (`Arc`, `Clone`) is
  concurrency.
- JSON objects are assumed to hold distinct keys in serde_json's order;
  the `Json` type does not enforce this, and member lookup takes the
  first match. Derived `Deserialize` rejects duplicate fields, and the
  structs written here have distinct keys.
- Header names are compared exactly, in lower case. The case-insensitive
  matching of the `http` crate is not modelled.
- A header value that is not visible ASCII (`to_str` failing) is not
  distinguished from one that does not parse. Both give no snapshot.
- Client.ClientBuilder.Build: does not model the transport's build
  failure, so the model's `build` always succeeds.
- `DiscogsOAuthClient::new` only stores its arguments and builds a reqwest
  client. It is represented by the `OAuthClient` value.
