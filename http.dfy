/** The HTTP vocabulary the client shares with its transport (reqwest's
    `Method`, `StatusCode` and request shape). Header names are lower-case,
    as the `http` crate stores them. */
module Http {
  import opened Wrappers
  import opened JsonValues

  datatype Method = GET | POST | PUT | DELETE

  /** `http::StatusCode` only holds three-digit codes. */
  type StatusCode = s: int | 100 <= s <= 999 witness 200

  const TOO_MANY_REQUESTS: StatusCode := 429

  /** `StatusCode::is_success` */
  predicate IsSuccess(s: StatusCode)
    ensures IsSuccess(s) ==> s != TOO_MANY_REQUESTS
  {
    200 <= s <= 299
  }

  const USER_AGENT := "user-agent"
  const ACCEPT := "accept"
  const AUTHORIZATION := "authorization"
  const CONTENT_TYPE := "content-type"

  /** What goes on the wire for one send: method, URL, headers in the order
      they are attached, query pairs (values already in text form) and the
      JSON body. */
  datatype Request = Request(
    verb: Method,
    url: string,
    headers: seq<(string, string)>,
    query: seq<(string, string)>,
    body: Option<Json>)

  /** `encode_path`: percent-encoding of one path segment, a given function
      of the URL-encoding library. */
  type Encoder = string -> string

  /** The value of the first header called `name`, as `HeaderMap::get` finds it. */
  function HeaderValue(headers: seq<(string, string)>, name: string): (r: Option<string>)
    ensures r.Some? <==> exists i :: 0 <= i < |headers| && headers[i].0 == name
    ensures r.Some? ==> exists i :: 0 <= i < |headers| && headers[i] == (name, r.value)
                                    && forall k :: 0 <= k < i ==> headers[k].0 != name
  {
    if headers == [] then None
    else if headers[0].0 == name then Some(headers[0].1)
    else HeaderValue(headers[1..], name)
  }
}
