/** The earlier copy of the normaliser in `src/req.rs`. Its request side
    (`generate`, `filter_json`, `get_content_type`) computes exactly what the
    copy in `src/config/mod.rs` computes and is modelled by the same members
    of `Profile`, `Normalize` and `Headers`; what differs is the layout of the
    text: the status line ends with a line break, and the body is followed by
    one. */
module LegacyReq {
  import opened Wrappers
  import opened Headers
  import opened Http
  import opened Foreign
  import opened ResponseFilter
  import opened Normalize

  /** `get_headers_text` of `src/req.rs`: the status line with its own line
      break, a line for each header not skipped, then an empty line. */
  method HeadersText(resp: Response, skip: seq<string>, env: Env) returns (text: string)
    ensures text == StatusText(resp, env) + "\n" + Lines(Kept(resp.headers, skip), env) + "\n"
  {
    text := StatusText(resp, env) + "\n";
    var hs := resp.headers;
    for i := 0 to |hs|
      invariant text == StatusText(resp, env) + "\n" + Lines(Kept(hs[..i], skip), env)
    {
      assert hs[..i + 1][..i] == hs[..i];
      assert Kept(hs[..i + 1], skip)
             == Kept(hs[..i], skip) + (if hs[i].0 in skip then [] else [hs[i]]);
      if hs[i].0 !in skip {
        LinesSnoc(Kept(hs[..i], skip), hs[i], env);
        text := text + HeaderLine(hs[i], env);
      } else {
        assert Kept(hs[..i + 1], skip) == Kept(hs[..i], skip);
      }
    }
    assert hs[..|hs|] == hs;
    text := text + "\n";
  }

  /** `filter_text` of `src/req.rs`: the header text, then the body
      (filtered when it is JSON) and a line break. */
  function FilterTextSpec(resp: Response, profile: ResponseProfile, env: Env): Result<string> {
    match BodyTextSpec(resp, profile.skipBody, env)
    case Err(e) => Err(e)
    case Ok(body) =>
      Ok(StatusText(resp, env) + "\n" + Lines(Kept(resp.headers, profile.skipHeaders), env) + "\n"
         + body + "\n")
  }

  method FilterText(resp: Response, profile: ResponseProfile, env: Env) returns (r: Result<string>)
    ensures r == FilterTextSpec(resp, profile, env)
  {
    var output := HeadersText(resp, profile.skipHeaders, env);
    var contentType := MediaType(resp.headers);
    if contentType.Err? {
      return Err(contentType.error);
    }
    if resp.text.None? {
      return Err(BodyRead);
    }
    var text := resp.text.value;
    if contentType.value == Some("application/json") {
      var filtered := FilterJson(text, profile.skipBody, env);
      if filtered.Err? {
        return Err(filtered.error);
      }
      output := output + filtered.value + "\n";
    } else {
      output := output + text + "\n";
    }
    r := Ok(output);
  }

  /** The two copies fail on the same responses with the same error, and
      when they succeed the earlier text is the current one with a line
      break inserted after the status text and one appended at the end. */
  lemma LegacyLayout(resp: Response, profile: ResponseProfile, env: Env)
    ensures FilterTextSpec(resp, profile, env).Err? <==> Normalize.FilterTextSpec(resp, profile, env).Err?
    ensures FilterTextSpec(resp, profile, env).Err? ==>
              FilterTextSpec(resp, profile, env).error == Normalize.FilterTextSpec(resp, profile, env).error
    ensures FilterTextSpec(resp, profile, env).Ok? ==>
              var status := StatusText(resp, env);
              var current := Normalize.FilterTextSpec(resp, profile, env).value;
              |status| <= |current|
              && current[..|status|] == status
              && FilterTextSpec(resp, profile, env).value == status + "\n" + current[|status|..] + "\n"
  {
    if FilterTextSpec(resp, profile, env).Ok? {
      var status := StatusText(resp, env);
      var rest := Lines(Kept(resp.headers, profile.skipHeaders), env) + "\n"
                  + BodyTextSpec(resp, profile.skipBody, env).value;
      var current := Normalize.FilterTextSpec(resp, profile, env).value;
      assert current == status + rest;
      assert current[..|status|] == status && current[|status|..] == rest;
    }
  }
}
