/** `RequestProfile` of `src/config/mod.rs`: building a profile from a URL,
    merging the overrides into the stored template (`generate`), the
    displayed URL, sending, and shape validation. The stored profile is a
    value, so `generate` cannot change it: every merge works on copies. */
module Profile {
  import opened Wrappers
  import opened Text
  import opened Json
  import opened Headers
  import opened Http
  import opened Foreign
  import opened Cli

  datatype RequestProfile = RequestProfile(
    httpMethod: Method,
    url: Url,
    params: Option<Json>,
    headers: HeaderMap,
    body: Option<Json>)

  /** `RequestProfile::new`: the URL text is parsed and the parse is
      unwrapped, so a URL that does not parse panics. */
  function New(httpMethod: Method, url: string, params: Option<Json>, headers: HeaderMap,
               body: Option<Json>, env: Env): (r: Result<RequestProfile>)
    ensures r.Err? <==> env.parseUrl(url).None?
    ensures r.Err? ==> r.error.Panic?
    ensures r.Ok? ==> r.value.url == env.parseUrl(url).value
    ensures r.Ok? ==> r.value.httpMethod == httpMethod && r.value.params == params
                      && r.value.headers == headers && r.value.body == body
  {
    match env.parseUrl(url)
    case None => Err(Panic("RequestProfile::new: URL does not parse"))
    case Some(u) => Ok(RequestProfile(httpMethod, u, params, headers, body))
  }

  /** The decoded pairs of a URL's query; none when it has no query. */
  function QueryPairs(u: Url, env: Env): seq<(string, string)> {
    if u.query.Some? then env.queryPairs(u.query.value) else []
  }

  /** `RequestProfile::from_str`: the URL's query pairs become the string
      entries of `params` (a repeated key keeps its last value), the query is
      removed from the URL, and the profile is a GET with no headers and no
      body. The profile's URL is the stripped URL parsed once more; when the
      URL parser reads its own serialisation back (as `url::Url` does), that
      is the stripped URL itself, without query, and nothing panics. */
  method FromStr(s: string, env: Env) returns (r: Result<RequestProfile>)
    ensures env.parseUrl(s).None? ==> r == Err(UrlParse)
    ensures env.parseUrl(s).Some? ==>
              var stripped := env.parseUrl(s).value.(query := None);
              r.Ok? <==> env.parseUrl(UrlString(stripped)).Some?
    ensures env.parseUrl(s).Some? ==>
              var stripped := env.parseUrl(s).value.(query := None);
              env.parseUrl(UrlString(stripped)) == Some(stripped) ==>
                r.Ok? && r.value.url == stripped && r.value.url.query == None
    ensures r.Ok? ==>
              var u := env.parseUrl(s).value;
              var pairs := QueryPairs(u, env);
              && r.value.httpMethod == GET
              && r.value.headers == []
              && r.value.body == None
              && r.value.url == env.parseUrl(UrlString(u.(query := None))).value
              && r.value.params.Some? && r.value.params.value.Object?
              && r.value.params.value.fields.Keys == KeysOf(pairs)
              && (forall k :: Lookup(r.value.params.value.fields, k)
                              == if LastValue(pairs, k).Some? then Some(Str(LastValue(pairs, k).value)) else None)
  {
    var parsed := env.parseUrl(s);
    if parsed.None? {
      return Err(UrlParse);
    }
    var u := parsed.value;
    var pairs := QueryPairs(u, env);
    var params := EmptyObject;
    for i := 0 to |pairs|
      invariant params.Object?
      invariant SetAll(params, pairs[i..]) == SetAll(EmptyObject, pairs)
    {
      params := Object(params.fields[pairs[i].0 := Str(pairs[i].1)]);
    }
    SetAllLastWins(EmptyObject, pairs);
    u := u.(query := None);
    r := New(GET, UrlString(u), Some(params), [], None, env);
  }

  /** The header overrides applied in order with `HeaderMap::insert`. A name
      or value that does not parse stops the merge with an error. */
  function ApplyHeaders(h: HeaderMap, kvs: seq<(string, string)>, env: Env): Result<HeaderMap>
    decreases |kvs|
  {
    if kvs == [] then Ok(h)
    else match env.headerName(kvs[0].0)
      case None => Err(InvalidHeaderName(kvs[0].0))
      case Some(n) =>
        if !env.headerValueOk(kvs[0].1) then Err(InvalidHeaderValue(kvs[0].1))
        else ApplyHeaders(Insert(h, n, kvs[0].1), kvs[1..], env)
  }

  /** The header overrides with their names in canonical form. */
  function CanonicalNames(kvs: seq<(string, string)>, env: Env): (r: seq<(string, string)>)
    ensures |r| == |kvs|
  {
    if kvs == [] then []
    else [(env.headerName(kvs[0].0).GetOr(kvs[0].0), kvs[0].1)] + CanonicalNames(kvs[1..], env)
  }

  /** Every header override must have a valid name and value. */
  predicate HeadersValid(kvs: seq<(string, string)>, env: Env) {
    forall i :: 0 <= i < |kvs| ==> env.headerName(kvs[i].0).Some? && env.headerValueOk(kvs[i].1)
  }

  /** Header overrides succeed exactly when every name and value is valid;
      then each name holds the value of its last override, and every other
      name keeps what the template had. */
  lemma {:induction false} HeadersLastWin(h: HeaderMap, kvs: seq<(string, string)>, env: Env)
    decreases |kvs|
    ensures ApplyHeaders(h, kvs, env).Ok? <==> HeadersValid(kvs, env)
    ensures ApplyHeaders(h, kvs, env).Ok? ==>
              forall n :: Get(ApplyHeaders(h, kvs, env).value, n)
                          == if LastValue(CanonicalNames(kvs, env), n).Some?
                             then LastValue(CanonicalNames(kvs, env), n) else Get(h, n)
  {
    if kvs != [] {
      var rest := kvs[1..];
      assert HeadersValid(kvs, env) <==> env.headerName(kvs[0].0).Some? && env.headerValueOk(kvs[0].1) && HeadersValid(rest, env) by {
        if env.headerName(kvs[0].0).Some? && env.headerValueOk(kvs[0].1) && HeadersValid(rest, env) {
          forall i | 0 <= i < |kvs| ensures env.headerName(kvs[i].0).Some? && env.headerValueOk(kvs[i].1) {
            if i > 0 { assert kvs[i] == rest[i - 1]; }
          }
        }
      }
      match env.headerName(kvs[0].0)
      case None =>
      case Some(n) =>
        if env.headerValueOk(kvs[0].1) {
          var h' := Insert(h, n, kvs[0].1);
          HeadersLastWin(h', rest, env);
          InsertGet(h, n, kvs[0].1);
          var c := CanonicalNames(kvs, env);
          assert c == [(n, kvs[0].1)] + CanonicalNames(rest, env);
          forall m ensures LastValue(c, m)
                           == if LastValue(CanonicalNames(rest, env), m).Some? then LastValue(CanonicalNames(rest, env), m)
                              else if n == m then Some(kvs[0].1) else None {
            LastValueCons((n, kvs[0].1), CanonicalNames(rest, env), m);
          }
        }
    }
  }

  /** A `content-type` header is added with `application/json` only when
      none is present. */
  function WithDefaultContentType(h: HeaderMap): HeaderMap {
    if Get(h, ContentType).Some? then h else Insert(h, ContentType, "application/json")
  }

  const JsonMedia: string := "application/json"
  const FormMedia: string := "application/x-www-form-urlencoded"
  const MultipartMedia: string := "multipart/form-data"

  /** The body serialisation chosen by the media type: JSON text for
      `application/json`, URL-encoded form text for the two form types, an
      error for anything else. */
  function EncodeBody(headers: HeaderMap, body: Json, env: Env): Result<string> {
    match MediaType(headers)
    case Err(e) => Err(e)
    case Ok(t) =>
      if t == Some(JsonMedia) then env.toJson(body)
      else if t == Some(FormMedia) || t == Some(MultipartMedia) then env.toForm(body)
      else Err(UnsupportedContentType)
  }

  /** `generate`: header overrides, then the Content-Type default, then the
      query overrides on `params` (or `{}`), then the body overrides on `body`
      (or `{}`), then the body encoding; the first failure is the result. */
  function GenerateSpec(p: RequestProfile, args: ExtraArgs, env: Env): Result<Generated> {
    match ApplyHeaders(p.headers, args.header, env)
    case Err(e) => Err(e)
    case Ok(h) =>
      var headers := WithDefaultContentType(h);
      match SetAll(p.params.GetOr(EmptyObject), args.query)
      case Err(e) => Err(e)
      case Ok(query) =>
        match SetAll(p.body.GetOr(EmptyObject), args.body)
        case Err(e) => Err(e)
        case Ok(body) =>
          match EncodeBody(headers, body, env)
          case Err(e) => Err(e)
          case Ok(text) => Ok(Generated(headers, query, text))
  }

  /** `generate`, as the source writes it: copies of the headers, params and
      body, three override loops, the default, and the dispatch. */
  method Generate(p: RequestProfile, args: ExtraArgs, env: Env) returns (r: Result<Generated>)
    ensures r == GenerateSpec(p, args, env)
  {
    var headers := p.headers;
    var query := p.params.GetOr(EmptyObject);
    var body := p.body.GetOr(EmptyObject);

    for i := 0 to |args.header|
      invariant ApplyHeaders(headers, args.header[i..], env) == ApplyHeaders(p.headers, args.header, env)
    {
      var (k, v) := args.header[i];
      var name := env.headerName(k);
      if name.None? {
        return Err(InvalidHeaderName(k));
      }
      if !env.headerValueOk(v) {
        return Err(InvalidHeaderValue(v));
      }
      headers := Insert(headers, name.value, v);
    }

    if Get(headers, ContentType).None? {
      headers := Insert(headers, ContentType, "application/json");
    }

    for i := 0 to |args.query|
      invariant SetAll(query, args.query[i..]) == SetAll(p.params.GetOr(EmptyObject), args.query)
    {
      var next := SetString(query, args.query[i].0, args.query[i].1);
      if next.Err? {
        return Err(next.error);
      }
      query := next.value;
    }

    for i := 0 to |args.body|
      invariant SetAll(body, args.body[i..]) == SetAll(p.body.GetOr(EmptyObject), args.body)
    {
      var next := SetString(body, args.body[i].0, args.body[i].1);
      if next.Err? {
        return Err(next.error);
      }
      body := next.value;
    }

    var t := MediaType(headers);
    if t.Err? {
      return Err(t.error);
    }
    var text: Result<string>;
    if t.value == Some(JsonMedia) {
      text := env.toJson(body);
    } else if t.value == Some(FormMedia) || t.value == Some(MultipartMedia) {
      text := env.toForm(body);
    } else {
      return Err(UnsupportedContentType);
    }
    if text.Err? {
      return Err(text.error);
    }
    r := Ok(Generated(headers, query, text.value));
  }

  /** Headers after `generate`: a name with an override holds its last
      override's value; otherwise the template's value; and `content-type`,
      when neither gives it one, is `application/json`. So an override of
      `content-type` suppresses the default. */
  lemma GenerateHeaders(p: RequestProfile, args: ExtraArgs, env: Env, n: string)
    requires GenerateSpec(p, args, env).Ok?
    ensures Get(GenerateSpec(p, args, env).value.headers, n)
            == if LastValue(CanonicalNames(args.header, env), n).Some?
               then LastValue(CanonicalNames(args.header, env), n)
               else if Get(p.headers, n).Some? then Get(p.headers, n)
               else if n == ContentType then Some("application/json")
               else None
  {
    HeadersLastWin(p.headers, args.header, env);
    var h := ApplyHeaders(p.headers, args.header, env).value;
    InsertGet(h, ContentType, "application/json");
  }

  /** The merged query and body after `generate`: every overridden key holds
      its last override as a string, every other key of the template is
      unchanged, and nothing else is added; the body text is the JSON or form
      encoding of that merged body, chosen by the media type. */
  lemma GenerateMerges(p: RequestProfile, args: ExtraArgs, env: Env)
    requires Validate(p).Ok?
    requires GenerateSpec(p, args, env).Ok?
    ensures var g := GenerateSpec(p, args, env).value;
            && g.query.Object?
            && g.query.fields.Keys == Fields(p.params.GetOr(EmptyObject)).Keys + KeysOf(args.query)
            && forall k :: Lookup(g.query.fields, k)
                           == if LastValue(args.query, k).Some? then Some(Str(LastValue(args.query, k).value))
                              else Lookup(Fields(p.params.GetOr(EmptyObject)), k)
    ensures var g := GenerateSpec(p, args, env).value;
            var b := SetAll(p.body.GetOr(EmptyObject), args.body).value;
            && b.Object?
            && b.fields.Keys == Fields(p.body.GetOr(EmptyObject)).Keys + KeysOf(args.body)
            && (forall k :: Lookup(b.fields, k)
                            == if LastValue(args.body, k).Some? then Some(Str(LastValue(args.body, k).value))
                               else Lookup(Fields(p.body.GetOr(EmptyObject)), k))
            && (MediaType(g.headers) == Ok(Some(JsonMedia)) ==> env.toJson(b) == Ok(g.body))
            && (MediaType(g.headers) == Ok(Some(FormMedia)) || MediaType(g.headers) == Ok(Some(MultipartMedia))
                ==> env.toForm(b) == Ok(g.body))
  {
    SetAllLastWins(p.params.GetOr(EmptyObject), args.query);
    SetAllLastWins(p.body.GetOr(EmptyObject), args.body);
  }

  /** Any media type other than JSON and the two form types fails `generate`
      once the overrides themselves went through: the body is never sent
      unencoded. */
  lemma UnsupportedMediaTypeFails(p: RequestProfile, args: ExtraArgs, env: Env)
    requires Validate(p).Ok? && ApplyHeaders(p.headers, args.header, env).Ok?
    requires var h := WithDefaultContentType(ApplyHeaders(p.headers, args.header, env).value);
             MediaType(h).Ok? && MediaType(h).value !in {Some(JsonMedia), Some(FormMedia), Some(MultipartMedia)}
    ensures GenerateSpec(p, args, env) == Err(UnsupportedContentType)
  {
    HeadersLastWin(p.headers, args.header, env);
    SetAllLastWins(p.params.GetOr(EmptyObject), args.query);
    SetAllLastWins(p.body.GetOr(EmptyObject), args.body);
  }

  /** A profile with no params, headers or body, generated without
      overrides, sends `content-type: application/json` and the JSON text of
      `{}`. */
  lemma EmptyProfileDefaults(u: Url, m: Method, env: Env)
    ensures var g := GenerateSpec(RequestProfile(m, u, None, [], None), ExtraArgs([], [], []), env);
            && (env.toJson(EmptyObject).Ok? ==> g == Ok(Generated([(ContentType, JsonMedia)], EmptyObject, env.toJson(EmptyObject).value)))
            && (env.toJson(EmptyObject).Err? ==> g == Err(env.toJson(EmptyObject).error))
  {
    var p := RequestProfile(m, u, None, [], None);
    assert ApplyHeaders([], [], env) == Ok([]);
    var h := Insert([], ContentType, JsonMedia);
    assert h == [(ContentType, JsonMedia)];
    assert WithDefaultContentType([]) == h;
    assert SetAll(EmptyObject, []) == Ok(EmptyObject);
    assert VisibleAscii(JsonMedia);
    assert ';' !in JsonMedia;
    assert Before(JsonMedia, ';') == JsonMedia;
    assert MediaType(h) == Ok(Some(JsonMedia));
    assert EncodeBody(h, EmptyObject, env) == env.toJson(EmptyObject);
  }

  /** `get_url`: the stored URL with its query replaced by the query-string
      encoding of the merged params, or the stored URL unchanged when the
      merged params are empty. It fails whenever `generate` fails; merged
      params that are not an object make `as_object().unwrap()` panic. */
  method GetUrl(p: RequestProfile, args: ExtraArgs, env: Env) returns (r: Result<string>)
    ensures GenerateSpec(p, args, env).Err? ==> r == Err(GenerateSpec(p, args, env).error)
    ensures GenerateSpec(p, args, env).Ok? ==>
              var q := GenerateSpec(p, args, env).value.query;
              if !q.Object? then r.Err? && r.error.Panic?
              else if q.fields == map[] then r == Ok(UrlString(p.url))
              else if env.toQuery(q).Err? then r == Err(env.toQuery(q).error)
              else r == Ok(UrlString(p.url.(query := Some(env.toQuery(q).value))))
  {
    var url := p.url;
    var g := Generate(p, args, env);
    if g.Err? {
      return Err(g.error);
    }
    var params := g.value.query;
    if !params.Object? {
      return Err(Panic("params is not an object"));
    }
    if params.fields != map[] {
      var q := env.toQuery(params);
      if q.Err? {
        return Err(q.error);
      }
      url := url.(query := Some(q.value));
    }
    r := Ok(UrlString(url));
  }

  /** `send`: the request is the profile's method and stored URL with the
      generated parts; a failed `generate` sends nothing. */
  function SendSpec(p: RequestProfile, args: ExtraArgs, env: Env): Result<Response> {
    match GenerateSpec(p, args, env)
    case Err(e) => Err(e)
    case Ok(g) => env.execute(Request(p.httpMethod, p.url, g))
  }

  method Send(p: RequestProfile, args: ExtraArgs, env: Env) returns (r: Result<Response>)
    ensures GenerateSpec(p, args, env).Err? ==> r == Err(GenerateSpec(p, args, env).error)
    ensures GenerateSpec(p, args, env).Ok? ==>
              r == env.execute(Request(p.httpMethod, p.url, GenerateSpec(p, args, env).value))
  {
    var g := Generate(p, args, env);
    if g.Err? {
      return Err(g.error);
    }
    r := env.execute(Request(p.httpMethod, p.url, g.value));
  }

  predicate IsObjectOrAbsent(v: Option<Json>) {
    v.None? || v.value.Object?
  }

  /** `Validateable for RequestProfile`: `params`, then `body`, must each be
      absent or an object. */
  function Validate(p: RequestProfile): (r: Result<()>)
    ensures r.Ok? <==> IsObjectOrAbsent(p.params) && IsObjectOrAbsent(p.body)
    ensures !IsObjectOrAbsent(p.params) ==> r == Err(InvalidShape("params"))
  {
    if !IsObjectOrAbsent(p.params) then Err(InvalidShape("params"))
    else if !IsObjectOrAbsent(p.body) then Err(InvalidShape("body"))
    else Ok(())
  }

  /** On a validated profile the JSON merges of `generate` cannot panic, and
      the merged params are an object, so `get_url`'s unwrap cannot panic
      either. */
  lemma ValidatedMergesSucceed(p: RequestProfile, args: ExtraArgs)
    requires Validate(p).Ok?
    ensures SetAll(p.params.GetOr(EmptyObject), args.query).Ok?
    ensures SetAll(p.params.GetOr(EmptyObject), args.query).value.Object?
    ensures SetAll(p.body.GetOr(EmptyObject), args.body).Ok?
  {
    SetAllLastWins(p.params.GetOr(EmptyObject), args.query);
    SetAllLastWins(p.body.GetOr(EmptyObject), args.body);
  }

  /** A profile built from a URL always validates, and its `params` is empty
      (so left out when the profile is serialised) exactly when the URL had
      no query pairs. */
  lemma FromStrProfileValidates(p: RequestProfile, pairs: seq<(string, string)>)
    requires p.params.Some? && p.params.value.Object? && p.body == None
    requires p.params.value.fields.Keys == KeysOf(pairs)
    ensures Validate(p).Ok?
    ensures EmptyJsonValue(p.params) <==> pairs == []
  {
    if pairs != [] {
      assert pairs[0].0 in KeysOf(pairs);
    }
  }

  /** The fields written when a profile is serialised: `params` and `body`
      are skipped when `empty_json_value`, `headers` when empty. */
  function SerializedFields(p: RequestProfile): (r: seq<string>)
    ensures "method" in r && "url" in r
    ensures "params" in r <==> !EmptyJsonValue(p.params)
    ensures "headers" in r <==> p.headers != []
    ensures "body" in r <==> !EmptyJsonValue(p.body)
  {
    ["method", "url"]
    + (if EmptyJsonValue(p.params) then [] else ["params"])
    + (if p.headers == [] then [] else ["headers"])
    + (if EmptyJsonValue(p.body) then [] else ["body"])
  }
}
