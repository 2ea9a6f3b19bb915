/** `DiscogsError` of src/error.rs. The transport's own error value
    (`reqwest::Error`) is reduced to the stage at which it arose, and
    `serde_json::Error` to a description. */
module Errors {
  import opened Http
  import opened Credentials

  /** Where a `reqwest::Error` came from. */
  datatype RequestFailure =
    | Transport    // the request could not be sent or no response came back
    | BodyRead     // the response body could not be read
    | Decode       // the body was read but is not the expected JSON

  datatype DiscogsError =
    | AuthRequired(required: AuthLevel, current: AuthLevel)
    | Http(status: StatusCode, message: string)
    | Request(failure: RequestFailure)
    | JsonParse(detail: string)
    | InvalidOAuthResponse(raw: string)

  /** The message used when an error body cannot be read or understood. */
  const UNKNOWN_ERROR := "unknown error"
}
