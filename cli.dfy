/** The override tokens of the command line (`key=value`, `%key=value`,
    `@key=value`) and their partition into `ExtraArgs`. */
module Cli {
  import opened Wrappers
  import opened Text

  /** Which part of the request an override targets. */
  datatype KeyValType = Query | Header | Body

  datatype KeyVal = KeyVal(kind: KeyValType, key: string, value: string)

  /** The per-invocation overrides: three ordered lists of (key, value). */
  datatype ExtraArgs = ExtraArgs(
    query: seq<(string, string)>,
    header: seq<(string, string)>,
    body: seq<(string, string)>)

  /** Parses one token. `isAlphabetic` is Rust's `char::is_alphabetic`
      (the Unicode Alphabetic property, a table outside this model).
      The token is split at its first `=`; key and value are trimmed; then the
      first character of the key decides the kind. */
  function ParseKeyVal(s: string, isAlphabetic: char -> bool): (r: Result<KeyVal>)
    ensures '=' !in s ==> r == Err(InvalidOverride)
    ensures r.Ok? ==> '=' !in r.value.key && Trimmed(r.value.value)
    ensures r.Ok? && r.value.kind == Query ==> Trimmed(r.value.key) && r.value.key != []
  {
    match IndexOf(s, '=')
    case None => Err(InvalidOverride)
    case Some(i) =>
      TrimKeepsOut(s[..i], '=');
      Classify(Trim(s[..i]), Trim(s[i + 1..]), isAlphabetic)
  }

  /** Trimming adds no character. */
  lemma TrimKeepsOut(t: string, c: char)
    requires c !in t
    ensures c !in Trim(t)
  {
    var r := Trim(t);
    var lead := Lead(t);
    forall j | 0 <= j < |r| ensures r[j] != c {
      assert r[j] == t[lead + j];
    }
  }

  /** The kind chosen by the first character of the trimmed key; the `@` or
      `%` prefix is cut off the key. */
  function Classify(key: string, value: string, isAlphabetic: char -> bool): (r: Result<KeyVal>)
    ensures r.Ok? ==> r.value.value == value && Prefix(r.value.kind) + r.value.key == key
  {
    if key != [] && key[0] == '@' then Ok(KeyVal(Body, key[1..], value))
    else if key != [] && key[0] == '%' then Ok(KeyVal(Header, key[1..], value))
    else if key != [] && isAlphabetic(key[0]) then Ok(KeyVal(Query, key, value))
    else Err(InvalidOverride)
  }

  /** What the model relies on about Rust's `char::is_alphabetic`: ASCII
      letters are alphabetic; digits, whitespace, `@`, `%` and `=` are not. */
  predicate AlphabeticClass(isAlphabetic: char -> bool) {
    && !isAlphabetic('@') && !isAlphabetic('%') && !isAlphabetic('=')
    && (forall c :: IsWhitespace(c) ==> !isAlphabetic(c))
    && (forall c :: '0' <= c <= '9' ==> !isAlphabetic(c))
    && (forall c :: ('a' <= c <= 'z' || 'A' <= c <= 'Z') ==> isAlphabetic(c))
  }

  /** The prefix character that selects a kind in a token. */
  function Prefix(kind: KeyValType): string {
    match kind
    case Query => ""
    case Header => "%"
    case Body => "@"
  }

  /** Writes a parsed override back as a token. */
  function Format(kv: KeyVal): string {
    Prefix(kv.kind) + kv.key + "=" + kv.value
  }

  /** Only the first `=` splits: the key is the trimmed text before it, and
      everything after it, further `=` included, is the trimmed value. */
  lemma SplitsOnFirstEquals(s: string, isAlphabetic: char -> bool, i: nat)
    requires i < |s| && s[i] == '=' && '=' !in s[..i]
    ensures ParseKeyVal(s, isAlphabetic) == Classify(Trim(s[..i]), Trim(s[i + 1..]), isAlphabetic)
  {
    FirstIndex(s, '=', i);
  }

  lemma FirstIndex(s: string, c: char, i: nat)
    requires i < |s| && s[i] == c && c !in s[..i]
    ensures IndexOf(s, c) == Some(i)
  {
  }

  /** A key whose first character is neither `@`, `%` nor alphabetic (a digit,
      another symbol, or no character at all) is rejected. */
  lemma RejectsBadLead(key: string, value: string, isAlphabetic: char -> bool)
    requires '=' !in key
    requires Trim(key) == [] || (Trim(key)[0] != '@' && Trim(key)[0] != '%' && !isAlphabetic(Trim(key)[0]))
    ensures ParseKeyVal(key + "=" + value, isAlphabetic) == Err(InvalidOverride)
  {
    ParseJoined(key, value, isAlphabetic);
    ClassifyRejects(Trim(key), Trim(value), isAlphabetic);
  }

  lemma ClassifyRejects(key: string, value: string, isAlphabetic: char -> bool)
    requires key == [] || (key[0] != '@' && key[0] != '%' && !isAlphabetic(key[0]))
    ensures Classify(key, value, isAlphabetic) == Err(InvalidOverride)
  {
  }

  /** Round trip: writing a key and value behind a prefix and parsing the
      token gives them back, as long as the key holds no `=`, does not end in
      whitespace, and the value is trimmed. The value may contain `=`, and a
      prefixed key may be empty or start with whitespace. */
  lemma {:induction false} ParseFormat(kv: KeyVal, isAlphabetic: char -> bool)
    requires '=' !in kv.key && Trimmed(kv.value)
    requires kv.key == [] || !IsWhitespace(kv.key[|kv.key| - 1])
    requires kv.kind == Query ==> kv.key != [] && isAlphabetic(kv.key[0])
    requires AlphabeticClass(isAlphabetic)
    ensures ParseKeyVal(Format(kv), isAlphabetic) == Ok(kv)
  {
    var head := Prefix(kv.kind) + kv.key;
    assert '=' !in head;
    ParseJoined(head, kv.value, isAlphabetic);
    TrimOfTrimmed(kv.value);
    HeadTrimmed(kv, isAlphabetic);
    TrimOfTrimmed(head);
    ClassifyPrefixed(kv, isAlphabetic);
  }

  /** A token made of a key without `=`, `=`, and a value splits there. */
  lemma ParseJoined(key: string, value: string, isAlphabetic: char -> bool)
    requires '=' !in key
    ensures ParseKeyVal(key + "=" + value, isAlphabetic) == Classify(Trim(key), Trim(value), isAlphabetic)
  {
    var s := key + "=" + value;
    assert s[..|key|] == key && s[|key|] == '=' && s[|key| + 1..] == value;
    SplitsOnFirstEquals(s, isAlphabetic, |key|);
  }

  lemma HeadTrimmed(kv: KeyVal, isAlphabetic: char -> bool)
    requires kv.key == [] || !IsWhitespace(kv.key[|kv.key| - 1])
    requires kv.kind == Query ==> kv.key != [] && isAlphabetic(kv.key[0])
    requires AlphabeticClass(isAlphabetic)
    ensures Trimmed(Prefix(kv.kind) + kv.key)
  {
  }

  lemma ClassifyPrefixed(kv: KeyVal, isAlphabetic: char -> bool)
    requires kv.kind == Query ==> kv.key != [] && isAlphabetic(kv.key[0])
    requires AlphabeticClass(isAlphabetic)
    ensures Classify(Prefix(kv.kind) + kv.key, kv.value, isAlphabetic) == Ok(kv)
  {
    var head := Prefix(kv.kind) + kv.key;
    match kv.kind
    case Query =>
      assert head == kv.key;
      assert head[0] != '@' && head[0] != '%';
    case Header =>
      assert head[0] == '%' && head[1..] == kv.key;
    case Body =>
      assert head[0] == '@' && head[1..] == kv.key;
  }

  /** Parsing is stable: a parsed override, written back, parses to itself. */
  lemma ParseIsCanonical(s: string, isAlphabetic: char -> bool)
    requires AlphabeticClass(isAlphabetic)
    requires ParseKeyVal(s, isAlphabetic).Ok?
    ensures var kv := ParseKeyVal(s, isAlphabetic).value;
            ParseKeyVal(Format(kv), isAlphabetic) == Ok(kv)
  {
    var i := IndexOf(s, '=').value;
    SplitsOnFirstEquals(s, isAlphabetic, i);
    ClassifiedKey(Trim(s[..i]), Trim(s[i + 1..]), isAlphabetic);
    ParseFormat(ParseKeyVal(s, isAlphabetic).value, isAlphabetic);
  }

  /** What classifying a trimmed key leaves: a key that does not end in
      whitespace, and for a query a key that starts with a letter. */
  lemma ClassifiedKey(key: string, value: string, isAlphabetic: char -> bool)
    requires Trimmed(key)
    requires Classify(key, value, isAlphabetic).Ok?
    ensures var kv := Classify(key, value, isAlphabetic).value;
            && (kv.key == [] || !IsWhitespace(kv.key[|kv.key| - 1]))
            && (kv.kind == Query ==> kv.key != [] && isAlphabetic(kv.key[0]))
  {
    var kv := Classify(key, value, isAlphabetic).value;
    if kv.kind != Query {
      assert kv.key == key[1..];
      assert kv.key == [] || kv.key[|kv.key| - 1] == key[|key| - 1];
    }
  }

  /** The entries of `kvs` of one kind, as (key, value), in input order. */
  function Select(kvs: seq<KeyVal>, kind: KeyValType): seq<(string, string)> {
    if kvs == [] then []
    else
      var last := kvs[|kvs| - 1];
      Select(kvs[..|kvs| - 1], kind) + (if last.kind == kind then [(last.key, last.value)] else [])
  }

  /** `From<Vec<KeyVal>> for ExtraArgs`: one pass that pushes every override
      onto the list of its kind. */
  method ToExtraArgs(kvs: seq<KeyVal>) returns (args: ExtraArgs)
    ensures args.query == Select(kvs, Query)
    ensures args.header == Select(kvs, Header)
    ensures args.body == Select(kvs, Body)
  {
    var query, header, body := [], [], [];
    for i := 0 to |kvs|
      invariant query == Select(kvs[..i], Query)
      invariant header == Select(kvs[..i], Header)
      invariant body == Select(kvs[..i], Body)
    {
      assert kvs[..i + 1][..i] == kvs[..i];
      var kv := kvs[i];
      match kv.kind
      case Query => query := query + [(kv.key, kv.value)];
      case Header => header := header + [(kv.key, kv.value)];
      case Body => body := body + [(kv.key, kv.value)];
    }
    assert kvs[..|kvs|] == kvs;
    args := ExtraArgs(query, header, body);
  }

  function Pair(kv: KeyVal): (string, string) {
    (kv.key, kv.value)
  }

  /** The three lists partition the input: every override lands in exactly
      the list of its own kind, so the lengths add up to the input length and
      the multiset of all entries is kept. */
  lemma {:induction false} SelectPartitions(kvs: seq<KeyVal>)
    ensures |Select(kvs, Query)| + |Select(kvs, Header)| + |Select(kvs, Body)| == |kvs|
    ensures multiset(Select(kvs, Query)) + multiset(Select(kvs, Header)) + multiset(Select(kvs, Body))
            == multiset(Pairs(kvs))
  {
    if kvs != [] {
      SelectPartitions(kvs[..|kvs| - 1]);
    }
  }

  function Pairs(kvs: seq<KeyVal>): seq<(string, string)> {
    if kvs == [] then [] else Pairs(kvs[..|kvs| - 1]) + [Pair(kvs[|kvs| - 1])]
  }

  /** Order is kept within a kind: the selection of a concatenation is the
      concatenation of the selections. */
  lemma {:induction false} SelectConcat(a: seq<KeyVal>, b: seq<KeyVal>, kind: KeyValType)
    ensures Select(a + b, kind) == Select(a, kind) + Select(b, kind)
  {
    if b == [] {
      assert a + b == a;
    } else {
      var bi := b[..|b| - 1];
      assert (a + b)[..|a + b| - 1] == a + bi;
      SelectConcat(a, bi, kind);
    }
  }

  /** An entry of the input appears in the list of its own kind and in no
      other list. */
  lemma {:induction false} SelectMembership(kvs: seq<KeyVal>, i: nat, kind: KeyValType)
    requires i < |kvs|
    ensures kvs[i].kind == kind ==> Pair(kvs[i]) in Select(kvs, kind)
    ensures Pair(kvs[i]) in Select(kvs, kind) ==> exists j :: 0 <= j < |kvs| && kvs[j].kind == kind && Pair(kvs[j]) == Pair(kvs[i])
  {
    SelectConcat(kvs[..i], kvs[i..], kind);
    assert kvs[..i] + kvs[i..] == kvs;
    SelectConcat([kvs[i]], kvs[i + 1..], kind);
    assert [kvs[i]] + kvs[i + 1..] == kvs[i..];
    assert Select([kvs[i]], kind) == (if kvs[i].kind == kind then [Pair(kvs[i])] else []) by {
      assert [kvs[i]][..0] == [];
    }
    if Pair(kvs[i]) in Select(kvs, kind) {
      SelectSource(kvs, kind, Pair(kvs[i]));
    }
  }

  lemma {:induction false} SelectSource(kvs: seq<KeyVal>, kind: KeyValType, p: (string, string))
    requires p in Select(kvs, kind)
    ensures exists j :: 0 <= j < |kvs| && kvs[j].kind == kind && Pair(kvs[j]) == p
  {
    var init := kvs[..|kvs| - 1];
    if p in Select(init, kind) {
      SelectSource(init, kind, p);
      var j :| 0 <= j < |init| && init[j].kind == kind && Pair(init[j]) == p;
      assert kvs[j] == init[j];
    } else {
      assert kvs[|kvs| - 1].kind == kind && Pair(kvs[|kvs| - 1]) == p;
    }
  }
}
