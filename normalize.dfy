/** The response normaliser of `src/config/mod.rs` (`ResponseExt`): a
    response becomes one text of status, kept headers and (filtered) body. */
module Normalize {
  import opened Wrappers
  import opened Text
  import opened Json
  import opened Headers
  import opened Http
  import opened Foreign
  import opened ResponseFilter

  /** `get_status_text`: `{version:?}:{status}`, with no line break. The
      version never holds a `:`, so the first `:` separates the version from
      the status. */
  function StatusText(resp: Response, env: Env): (r: string)
    ensures var v := VersionDebug(resp.version);
            && IndexOf(r, ':') == Some(|v|)
            && r[..|v|] == v
            && r[|v| + 1..] == env.statusDisplay(resp.status)
  {
    var v := VersionDebug(resp.version);
    assert ':' !in v;
    var r := v + ":" + env.statusDisplay(resp.status);
    assert r[..|v|] == v && r[|v|] == ':';
    r
  }

  /** The headers whose name is not in `skip` (exact comparison), in their
      original order. */
  function Kept(hs: HeaderMap, skip: seq<string>): HeaderMap {
    if hs == [] then []
    else Kept(hs[..|hs| - 1], skip) + (if hs[|hs| - 1].0 in skip then [] else [hs[|hs| - 1]])
  }

  /** One header line: `{name}: {value:?}` and a line break. */
  function HeaderLine(h: (string, string), env: Env): string {
    h.0 + ": " + env.valueDebug(h.1) + "\n"
  }

  /** The lines of a list of headers, in order. */
  function Lines(hs: HeaderMap, env: Env): string {
    if hs == [] then "" else Lines(hs[..|hs| - 1], env) + HeaderLine(hs[|hs| - 1], env)
  }

  lemma LinesSnoc(hs: HeaderMap, h: (string, string), env: Env)
    ensures Lines(hs + [h], env) == Lines(hs, env) + HeaderLine(h, env)
  {
    assert (hs + [h])[..|hs + [h]| - 1] == hs;
  }

  /** `get_headers_text`: a line for each header not skipped, then an empty
      line. */
  method HeadersText(hs: HeaderMap, skip: seq<string>, env: Env) returns (text: string)
    ensures text == Lines(Kept(hs, skip), env) + "\n"
  {
    text := "";
    for i := 0 to |hs|
      invariant text == Lines(Kept(hs[..i], skip), env)
    {
      assert hs[..i + 1][..i] == hs[..i];
      assert Kept(hs[..i + 1], skip)
             == Kept(hs[..i], skip) + (if hs[i].0 in skip then [] else [hs[i]]);
      if hs[i].0 !in skip {
        LinesSnoc(Kept(hs[..i], skip), hs[i], env);
        text := text + HeaderLine(hs[i], env);
      } else {
        assert Kept(hs[..i + 1], skip) == Kept(hs[..i], skip);
      }
    }
    assert hs[..|hs|] == hs;
    text := text + "\n";
  }

  /** A header is kept exactly when it is in the response and its name is
      not in the skip list. */
  lemma {:induction false} KeptMembers(hs: HeaderMap, skip: seq<string>, h: (string, string))
    ensures h in Kept(hs, skip) <==> h in hs && h.0 !in skip
  {
    if hs != [] {
      KeptMembers(hs[..|hs| - 1], skip, h);
      assert hs == hs[..|hs| - 1] + [hs[|hs| - 1]];
    }
  }

  /** Filtering keeps order: the kept headers of a concatenation are the
      kept headers of each part, in turn. */
  lemma {:induction false} KeptConcat(a: HeaderMap, b: HeaderMap, skip: seq<string>)
    ensures Kept(a + b, skip) == Kept(a, skip) + Kept(b, skip)
  {
    if b == [] {
      assert a + b == a;
    } else {
      assert (a + b)[..|a + b| - 1] == a + b[..|b| - 1];
      KeptConcat(a, b[..|b| - 1], skip);
    }
  }

  /** With nothing to skip every header is kept. */
  lemma {:induction false} KeptAll(hs: HeaderMap)
    ensures Kept(hs, []) == hs
  {
    if hs != [] {
      KeptAll(hs[..|hs| - 1]);
    }
  }

  /** `get_header_keys`: the header names, in order. */
  function HeaderKeys(hs: HeaderMap): (keys: seq<string>)
    ensures |keys| == |hs|
    ensures forall i :: 0 <= i < |hs| ==> keys[i] == hs[i].0
  {
    if hs == [] then [] else HeaderKeys(hs[..|hs| - 1]) + [hs[|hs| - 1].0]
  }

  /** Skipping every name that `get_header_keys` offers leaves no header
      line. */
  lemma {:induction false} SkipAllKeys(hs: HeaderMap)
    ensures Kept(hs, HeaderKeys(hs)) == []
  {
    var kept := Kept(hs, HeaderKeys(hs));
    if kept != [] {
      KeptMembers(hs, HeaderKeys(hs), kept[0]);
    }
  }

  /** Names in a response are in canonical lowercase. */
  predicate Lowercase(s: string) {
    forall i :: 0 <= i < |s| ==> !('A' <= s[i] <= 'Z')
  }

  /** The skip test compares exactly against the lowercase names, so a skip
      entry with an upper-case letter (such as `X-Bar`) removes nothing. */
  lemma {:induction false} UppercaseSkipIgnored(hs: HeaderMap, skip: seq<string>, s: string)
    requires forall j :: 0 <= j < |hs| ==> Lowercase(hs[j].0)
    requires !Lowercase(s)
    ensures Kept(hs, skip + [s]) == Kept(hs, skip)
  {
    if hs != [] {
      UppercaseSkipIgnored(hs[..|hs| - 1], skip, s);
      assert hs[|hs| - 1].0 != s;
    }
  }

  /** The names listed in a skip list. */
  function Names(skip: seq<string>): set<string> {
    set k | k in skip
  }

  /** `filter_json` on a parsed value: the skip keys are removed from a
      top-level object; any other value is left as it is. */
  function Filtered(j: Json, skip: seq<string>): (r: Json)
    ensures !j.Object? ==> r == j
    ensures j.Object? ==> r.Object? && r.fields.Keys == j.fields.Keys - Names(skip)
    ensures j.Object? ==> forall k :: k in r.fields ==> r.fields[k] == j.fields[k]
  {
    if j.Object? then Object(j.fields - Names(skip)) else j
  }

  /** Removing keys twice removes nothing more. */
  lemma FilteredIdempotent(j: Json, skip: seq<string>)
    ensures Filtered(Filtered(j, skip), skip) == Filtered(j, skip)
  {
    if j.Object? {
      assert Filtered(Filtered(j, skip), skip).fields == Filtered(j, skip).fields;
    }
  }

  /** `filter_json`: parse (failure is a decode error), filter, and print
      back with pretty formatting. */
  function FilterJsonSpec(text: string, skip: seq<string>, env: Env): Result<string> {
    match env.parseJson(text)
    case None => Err(BodyDecode)
    case Some(j) => env.toPrettyJson(Filtered(j, skip))
  }

  /** `filter_json` as written: the keys are removed from the parsed object
      one at a time. */
  method FilterJson(text: string, skip: seq<string>, env: Env) returns (r: Result<string>)
    ensures r == FilterJsonSpec(text, skip, env)
  {
    var parsed := env.parseJson(text);
    if parsed.None? {
      return Err(BodyDecode);
    }
    var json := parsed.value;
    if json.Object? {
      var obj := json.fields;
      for i := 0 to |skip|
        invariant obj == json.fields - Names(skip[..i])
      {
        assert Names(skip[..i + 1]) == Names(skip[..i]) + {skip[i]} by {
          assert skip[..i + 1] == skip[..i] + [skip[i]];
        }
        obj := obj - {skip[i]};
      }
      assert skip[..|skip|] == skip;
      json := Object(obj);
    }
    r := env.toPrettyJson(json);
  }

  /** `get_body_text`: the body filtered as JSON when the media type is
      `application/json`, otherwise verbatim. */
  function BodyTextSpec(resp: Response, skip: seq<string>, env: Env): Result<string> {
    match MediaType(resp.headers)
    case Err(e) => Err(e)
    case Ok(t) =>
      match resp.text
      case None => Err(BodyRead)
      case Some(text) => if t == Some("application/json") then FilterJsonSpec(text, skip, env) else Ok(text)
  }

  method BodyText(resp: Response, skip: seq<string>, env: Env) returns (r: Result<string>)
    ensures r == BodyTextSpec(resp, skip, env)
  {
    var t := MediaType(resp.headers);
    if t.Err? {
      return Err(t.error);
    }
    if resp.text.None? {
      return Err(BodyRead);
    }
    if t.value == Some("application/json") {
      r := FilterJson(resp.text.value, skip, env);
    } else {
      r := Ok(resp.text.value);
    }
  }

  /** `filter_text`: status text, header text, body text, in that order; a
      body failure fails the whole. */
  function FilterTextSpec(resp: Response, profile: ResponseProfile, env: Env): Result<string> {
    match BodyTextSpec(resp, profile.skipBody, env)
    case Err(e) => Err(e)
    case Ok(body) =>
      Ok(StatusText(resp, env) + Lines(Kept(resp.headers, profile.skipHeaders), env) + "\n" + body)
  }

  method FilterText(resp: Response, profile: ResponseProfile, env: Env) returns (r: Result<string>)
    ensures r == FilterTextSpec(resp, profile, env)
  {
    var output := StatusText(resp, env);
    var headers := HeadersText(resp.headers, profile.skipHeaders, env);
    output := output + headers;
    var body := BodyText(resp, profile.skipBody, env);
    if body.Err? {
      return Err(body.error);
    }
    r := Ok(output + body.value);
    assert output == StatusText(resp, env) + Lines(Kept(resp.headers, profile.skipHeaders), env) + "\n";
  }

  /** With the default response profile nothing is dropped: every header
      line is printed and a JSON body is only re-printed. */
  lemma DefaultKeepsEverything(resp: Response, env: Env)
    ensures FilterTextSpec(resp, Default, env)
            == match BodyTextSpec(resp, [], env)
               case Err(e) => Err(e)
               case Ok(body) => Ok(StatusText(resp, env) + Lines(resp.headers, env) + "\n" + body)
    ensures forall text :: FilterJsonSpec(text, [], env)
                           == match env.parseJson(text)
                              case None => Err(BodyDecode)
                              case Some(j) => env.toPrettyJson(j)
  {
    KeptAll(resp.headers);
    forall text ensures FilterJsonSpec(text, [], env)
                        == match env.parseJson(text)
                           case None => Err(BodyDecode)
                           case Some(j) => env.toPrettyJson(j) {
      if env.parseJson(text).Some? {
        var j := env.parseJson(text).value;
        if j.Object? {
          assert Filtered(j, []).fields == j.fields;
        }
      }
    }
  }
}
