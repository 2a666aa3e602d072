/** The HTTP values the core passes around: methods, URLs, the request it
    builds and the response it reads. Parsing and sending belong to the
    `url` and `reqwest` crates and are reached through `Foreign.Env`. */
module Http {
  import opened Wrappers
  import opened Json
  import opened Headers

  datatype Method = GET | POST | PUT | DELETE | HEAD | OPTIONS | CONNECT | PATCH | TRACE
                  | Extension(name: string)

  /** A parsed `url::Url`: everything before the query (scheme, authority,
      path), the query and the fragment. */
  datatype Url = Url(front: string, query: Option<string>, fragment: Option<string>)

  /** `Url::to_string`, the serialisation of a parsed URL. */
  function UrlString(u: Url): string {
    u.front
    + (if u.query.Some? then "?" + u.query.value else "")
    + (if u.fragment.Some? then "#" + u.fragment.value else "")
  }

  /** `http::Version`. */
  datatype Version = Http09 | Http10 | Http11 | H2 | H3

  /** The `{:?}` rendering of a `Version`. */
  function VersionDebug(v: Version): string {
    match v
    case Http09 => "HTTP/0.9"
    case Http10 => "HTTP/1.0"
    case Http11 => "HTTP/1.1"
    case H2 => "HTTP/2.0"
    case H3 => "HTTP/3.0"
  }

  /** What `generate` produces: the final headers, the merged query object,
      and the encoded body text. */
  datatype Generated = Generated(headers: HeaderMap, query: Json, body: string)

  /** The request `send` hands to the HTTP client. */
  datatype Request = Request(httpMethod: Method, url: Url, parts: Generated)

  /** A received response: protocol version, status code, headers in the
      order the client yields them, and the body text, or `None` when
      reading it failed. */
  datatype Response = Response(version: Version, status: nat, headers: HeaderMap, text: Option<string>)
}
