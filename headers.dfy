/** `http::HeaderMap` as the core uses it: an ordered list of
    (name, value) entries whose names are already in canonical lowercase. */
module Headers {
  import opened Wrappers
  import opened Text

  type HeaderMap = seq<(string, string)>

  /** `header::CONTENT_TYPE`, in its canonical form. */
  const ContentType: string := "content-type"

  /** `HeaderMap::get`: the first value stored under `name`. */
  function Get(h: HeaderMap, name: string): Option<string> {
    if h == [] then None
    else if h[0].0 == name then Some(h[0].1)
    else Get(h[1..], name)
  }

  /** All values stored under `name`, in order. */
  function Values(h: HeaderMap, name: string): (r: seq<string>)
    ensures r == [] <==> Get(h, name).None?
    ensures r != [] ==> Get(h, name) == Some(r[0])
  {
    if h == [] then []
    else if h[0].0 == name then [h[0].1] + Values(h[1..], name)
    else Values(h[1..], name)
  }

  /** The entries whose name is not `name`, in order. */
  function Without(h: HeaderMap, name: string): (r: HeaderMap)
    ensures Values(r, name) == []
    ensures |r| <= |h|
  {
    if h == [] then []
    else if h[0].0 == name then Without(h[1..], name)
    else [h[0]] + Without(h[1..], name)
  }

  /** The position of the first entry named `name`. */
  function Position(h: HeaderMap, name: string): (r: nat)
    ensures r <= |h|
    ensures r < |h| <==> Get(h, name).Some?
  {
    if h == [] || h[0].0 == name then 0 else 1 + Position(h[1..], name)
  }

  /** `HeaderMap::insert`: afterwards `name` holds exactly `value`. An
      existing name keeps the position of its first entry and loses its
      other values; a new name is appended. Nothing else changes. */
  function Insert(h: HeaderMap, name: string, value: string): (r: HeaderMap)
    ensures Values(r, name) == [value]
    ensures Without(r, name) == Without(h, name)
    ensures forall n :: n != name ==> Values(r, n) == Values(h, n)
    ensures Get(h, name).Some? ==> Position(r, name) == Position(h, name)
    ensures Get(h, name).None? ==> r == h + [(name, value)]
  {
    if h == [] then [(name, value)]
    else if h[0].0 == name then
      var r := [(name, value)] + Without(h[1..], name);
      assert r[1..] == Without(h[1..], name);
      WithoutTwice(h[1..], name);
      forall n | n != name ensures Values(r, n) == Values(h, n) {
        WithoutKeepsOthers(h[1..], name, n);
      }
      r
    else [h[0]] + Insert(h[1..], name, value)
  }

  lemma {:induction false} WithoutTwice(h: HeaderMap, name: string)
    ensures Without(Without(h, name), name) == Without(h, name)
  {
    if h != [] {
      WithoutTwice(h[1..], name);
      if h[0].0 != name {
        assert ([h[0]] + Without(h[1..], name))[1..] == Without(h[1..], name);
      }
    }
  }

  /** After `Insert`, looking up `name` gives the new value and every other
      lookup is unchanged. */
  lemma InsertGet(h: HeaderMap, name: string, value: string)
    ensures forall m :: Get(Insert(h, name, value), m) == if m == name then Some(value) else Get(h, m)
  {
    forall m ensures Get(Insert(h, name, value), m) == if m == name then Some(value) else Get(h, m) {
      var a, b := Values(Insert(h, name, value), m), Values(h, m);
    }
  }

  lemma {:induction false} WithoutKeepsOthers(h: HeaderMap, name: string, n: string)
    requires n != name
    ensures Values(Without(h, name), n) == Values(h, n)
  {
    if h != [] {
      WithoutKeepsOthers(h[1..], name, n);
      if h[0].0 != name {
        assert ([h[0]] + Without(h[1..], name))[1..] == Without(h[1..], name);
      }
    }
  }

  /** `HeaderValue::to_str` succeeds exactly on visible ASCII and tab. */
  predicate VisibleAscii(v: string) {
    forall i :: 0 <= i < |v| ==> v[i] == '\t' || (32 <= v[i] as int < 127)
  }

  /** `get_content_type`: the media type of the first `content-type` value,
      that is its text before the first `;`, neither trimmed nor
      case-folded. Reading a value that is not visible ASCII unwraps a failed
      `to_str` and panics. */
  function MediaType(h: HeaderMap): (r: Result<Option<string>>)
    ensures Get(h, ContentType).None? ==> r == Ok(None)
    ensures r.Ok? && r.value.Some? ==>
              Get(h, ContentType).Some? && r.value.value <= Get(h, ContentType).value
              && ';' !in r.value.value
              && (|r.value.value| < |Get(h, ContentType).value| ==> Get(h, ContentType).value[|r.value.value|] == ';')
    ensures r.Err? <==> Get(h, ContentType).Some? && !VisibleAscii(Get(h, ContentType).value)
    ensures r.Ok? ==> (r.value.None? <==> Get(h, ContentType).None?)
  {
    match Get(h, ContentType)
    case None => Ok(None)
    case Some(v) =>
      if VisibleAscii(v) then Ok(Some(Before(v, ';')))
      else Err(Panic("content-type header value is not visible ASCII"))
  }
}
