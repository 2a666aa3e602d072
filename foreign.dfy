/** The collaborators the core calls but does not implement: URL parsing,
    the serde encoders and JSON parser, header-name and header-value
    validation, the display of status codes and header values, and the HTTP
    client. Each is a total function supplied by the caller; each that can
    fail in the source returns `Option` or `Result`. */
module Foreign {
  import opened Wrappers
  import opened Json
  import opened Http

  datatype Env = Env(
    /** `Url::parse`. */
    parseUrl: string -> Option<Url>,
    /** `Url::query_pairs` over a query string: decoded (key, value) pairs. */
    queryPairs: string -> seq<(string, string)>,
    /** `HeaderName::from_str`: the canonical (lowercase) name, if valid. */
    headerName: string -> Option<string>,
    /** `HeaderValue::from_str` succeeds. */
    headerValueOk: string -> bool,
    /** `serde_json::to_string`. */
    toJson: Json -> Result<string>,
    /** `serde_urlencoded::to_string`. */
    toForm: Json -> Result<string>,
    /** `serde_qs::to_string`. */
    toQuery: Json -> Result<string>,
    /** `serde_json::from_str`. */
    parseJson: string -> Option<Json>,
    /** `serde_json::to_string_pretty`. */
    toPrettyJson: Json -> Result<string>,
    /** `StatusCode`'s `Display`. */
    statusDisplay: nat -> string,
    /** `HeaderValue`'s `{:?}` rendering. */
    valueDebug: string -> string,
    /** Building and executing the request with `reqwest::Client`. */
    execute: Request -> Result<Response>)
}
