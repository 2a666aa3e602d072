# rdiff core in Dafny

A model of the core of `rdiff`/`xreq`. `rdiff` sends two HTTP requests described by
YAML profiles and prints a line diff of the two normalised responses; `xreq` sends
one. The model covers:

- the command-line override tokens (`key=value` for the query, `%key=value` for a
  header, `@key=value` for the body) and their partition into `ExtraArgs`
  (`Cli`, `src/cli.rs`);
- request profiles: building one from a URL, merging the overrides into the
  stored template (`generate`), the displayed URL, sending, validation and
  serialisation (`Profile`, `Json`, `Headers`, `src/config/mod.rs`);
- the response normaliser: status text, filtered header lines and the filtered
  JSON body (`Normalize`, `ResponseFilter`), and its earlier copy with a
  different layout (`LegacyReq`, `src/req.rs`);
- the named-profile configs of both tools, with lookup and validation
  (`ProfileMap`, `RDiff`, `XReq`), and the `diff` orchestration;
- the layout of the diff report: line labels, signs, separators and rows
  (`DiffRender`, `src/utils.rs`).

The stored profile is a value, so `generate` works on copies and cannot change it.
Rust panics (a failed `unwrap`, indexing a JSON value that is not an object or
`null`) are modelled as `Err(Panic(..))`. Everything the core calls but does not
implement is a field of `Foreign.Env`, passed in as a parameter:

- URL parsing and query decoding;
- the serde encoders and the JSON parser;
- header-name and header-value validation;
- status and header-value display;
- the HTTP client.

The line diff of the `similar` crate is also a parameter (`lineDiff`), and so is
the terminal styling (`DiffRender.Painter`).

`HeaderMap` is an ordered list of (name, value) pairs whose names are already in
canonical lowercase. `insert` sets the first entry of a name in place, drops the
other entries of that name, and appends when the name is absent. The iteration
order of a config's `HashMap` is an input (`order`, any enumeration of the keys),
so every statement about validation holds whatever that order is.

Where the code does something other than what the tool is meant to do, the
model follows the code:

- An override with an empty key after its prefix is meant to be rejected, but
  `@=v` and `%=v` are accepted, with an empty key.
- The key is meant to be trimmed after its prefix is removed; the code trims
  first, so `@ a=b` gives the body key ` a`, not `a`.
- `skip_headers` is meant to name headers as they are written; entries are
  compared exactly against the lowercase names the response carries, so
  `X-Bar` removes nothing.
- The media type is meant to be the header value with its parameters
  dropped; it is the text before the first `;`, neither trimmed nor
  case-folded, so `application/json ;x` is unsupported.
- `get_url` is meant to return the URL with the merged query appended; when
  the merged params are empty it returns the stored URL unchanged, including
  any query that URL already had.
- A stored `params: null` is meant to count as absent; it stays `null` when
  there are no query overrides, and such a profile fails `validate` first.

## Model

| member | source | states |
|---|---|---|
| Text.Trim | src/cli.rs:22-29 | `str::trim`: the result is a contiguous slice of the input, starting after the leading whitespace, and neither starts nor ends with whitespace |
| Text.TrimCutsWhitespace | src/cli.rs:22-29 | everything `str::trim` cuts from either end of the text is whitespace |
| Text.TrimOfTrimmed | src/cli.rs:25 | trimming text without surrounding whitespace changes nothing |
| Text.IndexOf | src/cli.rs:21 | the first occurrence of a character, or `None` exactly when it does not occur |
| Text.Before | src/config/mod.rs:279 | `split(";").next()`: the prefix before the first `;`, or the whole text when there is none |
| Text.Decimal | src/utils.rs:19 | decimal digits with no leading zero |
| Text.DecimalRoundTrip | src/utils.rs:19 | reading the decimal rendering back gives the number |
| Text.PadRight | src/utils.rs:19 | `{:<4}`: the text followed by spaces up to the width, never cut |
| Text.LastValue | src/config/mod.rs:163-169 | reference for "last occurrence wins"; `None` exactly when the key does not occur |
| Cli.ParseKeyVal | src/cli.rs:20-43 | a token without `=` is rejected; a parsed key holds no `=`; the value is trimmed; a query key is trimmed and non-empty |
| Cli.Classify | src/cli.rs:31-36 | the kind's prefix followed by the returned key is the trimmed key, and the value passes through |
| Cli.SplitsOnFirstEquals | src/cli.rs:21-29 | only the first `=` splits: the key is the trimmed text before it, the value the trimmed rest, further `=` included |
| Cli.RejectsBadLead | src/cli.rs:31-35 | `key=value` whose trimmed key is empty, or starts with neither `@`, `%` nor an alphabetic character, is an error |
| Cli.ParseJoined | src/cli.rs:22-29 | `key=value` with no `=` in the key splits exactly into the trimmed key and the trimmed value |
| Cli.ParseFormat | src/cli.rs:20-43 | round trip: a prefix, a key without `=` or trailing whitespace, `=`, and a trimmed value parse back to the same override |
| Cli.ParseIsCanonical | src/cli.rs:20-43 | a parsed override, written back as a token, parses to itself |
| Cli.ToExtraArgs | src/cli.rs:45-65 | the loop puts into each list exactly the overrides of that kind, in input order |
| Cli.SelectPartitions | src/cli.rs:45-65 | the three lists partition the input: lengths add up, and the multiset of entries is kept |
| Cli.SelectConcat | src/cli.rs:51-57 | order within a kind is kept: selection distributes over concatenation |
| Cli.SelectMembership | src/cli.rs:52-56 | an override lands in the list of its own kind, and a list holds only entries of its kind |
| Json.SetString | src/config/mod.rs:164 | `value[k] = v`: `null` becomes an object, an object gets `k` set to the string and keeps every other key, any other value panics |
| Json.SetAllLastWins | src/config/mod.rs:163-169 | overrides on an object (or `null`) succeed; each overridden key holds its last value as a string; the other keys are unchanged; no other key is added |
| Json.SetAllPanics | src/config/mod.rs:163-169 | overrides on a value that is neither an object nor `null` panic |
| Json.EmptyJsonValue | src/config/mod.rs:284-287 | a value is empty exactly when it is absent, `null`, or the empty object |
| Headers.Values | src/config/mod.rs:156 | the values of a name, the first of them being what `get` returns |
| Headers.Insert | src/config/mod.rs:152 | after `insert` the name holds exactly the new value at the position of its first entry, or appended when new, and every other name is unchanged |
| Headers.InsertGet | src/config/mod.rs:151-161 | lookup after `insert` gives the new value for that name and the old lookup for every other |
| Headers.MediaType | src/config/mod.rs:276-281 | the first `content-type` value up to (not including) its first `;`; `None` exactly when the header is absent; a panic exactly when the value is not visible ASCII |
| Profile.New | src/config/mod.rs:98-112 | the URL is parsed and unwrapped: a panic exactly when it does not parse, otherwise the fields as given |
| Profile.FromStr | src/config/mod.rs:75-91 | a URL that does not parse is an error; otherwise a GET with no headers and no body, and `params` an object holding each query key's last value as a string; when the URL parser reads its own serialisation back, the result is `Ok` and the stored URL is the parsed URL without its query |
| Profile.FromStrProfileValidates | src/config/mod.rs:75-91 | a profile built from a URL validates, and its `params` is left out of serialisation exactly when the URL had no query pairs |
| Profile.HeadersLastWin | src/config/mod.rs:151-153 | header overrides succeed exactly when every name and value is valid; each name then holds its last override, the others the template's value |
| Profile.Generate | src/config/mod.rs:146-184 | the three override loops, the default and the dispatch compute `GenerateSpec`: headers, default, query, body, encoding, first failure wins |
| Profile.GenerateHeaders | src/config/mod.rs:151-161 | after `generate` a header holds its last override, else the template's value, and `content-type` is `application/json` only when neither sets it |
| Profile.GenerateMerges | src/config/mod.rs:163-183 | merged query and body hold each override's last value as a string and the template's other keys; the body text is the JSON or form encoding chosen by the media type |
| Profile.UnsupportedMediaTypeFails | src/config/mod.rs:171-183 | a media type other than JSON, form or multipart makes `generate` fail with "unsupported content type" |
| Profile.EmptyProfileDefaults | src/config/mod.rs:146-184 | an empty profile without overrides sends `content-type: application/json` and the JSON text of `{}` |
| Profile.GetUrl | src/config/mod.rs:133-143 | fails when `generate` fails; the stored URL when the merged params are empty, else the URL with its query set to their encoding; params that are not an object panic |
| Profile.Send | src/config/mod.rs:116-130 | a failed `generate` sends nothing; otherwise the request is the profile's method and URL with the generated parts |
| Profile.Validate | src/config/mod.rs:187-207 | succeeds exactly when `params` and `body` are each absent or an object; `params` is checked first |
| Profile.ValidatedMergesSucceed | src/config/mod.rs:187-207 | on a validated profile the JSON merges cannot panic and the merged params are an object |
| Profile.SerializedFields | src/config/mod.rs:50-70 | `params` and `body` are written exactly when not `empty_json_value`, `headers` exactly when non-empty |
| ResponseFilter.IsDefault | src/config/mod.rs:46-48 | a response profile is the default exactly when both skip lists are empty |
| ResponseFilter.SerializedFields | src/config/rdiff.rs:22-28 | each skip list is written exactly when non-empty; nothing is written exactly for the default profile |
| Normalize.HeadersText | src/config/mod.rs:245-255 | one line per header whose name is not skipped, in order, then an empty line |
| Normalize.KeptMembers | src/config/mod.rs:247-251 | a header is printed exactly when it is in the response and its name is not in the skip list |
| Normalize.KeptConcat | src/config/mod.rs:247-251 | filtering keeps the response order |
| Normalize.KeptAll | src/config/mod.rs:245-255 | with no skip list every header is printed |
| Normalize.HeaderKeys | src/config/mod.rs:232-238 | the header names, one per header, in their original order |
| Normalize.StatusText | src/config/mod.rs:241-243 | the version text, a `:` (the first one in the line), then the status as displayed |
| Normalize.SkipAllKeys | src/config/mod.rs:232-238 | skipping every name `get_header_keys` offers leaves no header line |
| Normalize.UppercaseSkipIgnored | src/config/mod.rs:248 | a skip entry with an upper-case letter removes nothing from lowercase names |
| Normalize.Filtered | src/config/mod.rs:266-274 | an object loses exactly the skip keys and keeps the values of the rest; any other root is untouched |
| Normalize.FilteredIdempotent | src/config/mod.rs:269-271 | filtering twice is filtering once |
| Normalize.FilterJson | src/config/mod.rs:266-274 | unparsable text is an error; otherwise the key-removal loop gives the filtered value, pretty-printed |
| Normalize.BodyText | src/config/mod.rs:257-264 | media type first (may panic), then the body read; JSON is filtered, anything else returned verbatim |
| Normalize.FilterText | src/config/mod.rs:215-230 | status text, header text and body text, with no line break after the status; a body failure fails the whole |
| Normalize.DefaultKeepsEverything | src/config/mod.rs:215-230 | with the default response profile every header line is printed and a JSON body is only re-printed |
| LegacyReq.HeadersText | src/req.rs:117-128 | a `version:status` line with its own line break, the non-skipped header lines in order, then an empty line |
| LegacyReq.FilterText | src/req.rs:99-114 | the header text, then the body (filtered when JSON) and a line break |
| LegacyReq.LegacyLayout | src/req.rs:99-128 | the two copies fail alike; on success the earlier text is the current one with a line break after the status and one at the end |
| DiffRender.LabelDigits | src/utils.rs:13-22 | a label is four spaces without a line; otherwise it starts with the decimal digits of the 1-based line number and is padded with spaces to width 4 |
| DiffRender.LabelWidth | src/utils.rs:18-19 | labels of lines up to 9999 are exactly four characters wide |
| DiffRender.Sign | src/utils.rs:35-39 | a one-character sign per tag |
| DiffRender.SignsDistinct | src/utils.rs:35-39 | the signs of different tags differ |
| DiffRender.DiffText | src/utils.rs:24-62 | the nested writing loops produce `Render` of the grouped changes |
| DiffRender.WriteGroup | src/utils.rs:32-58 | the operations of a group are written in order |
| DiffRender.WriteOp | src/utils.rs:33-57 | the changes of an operation are written in order |
| DiffRender.WriteRow | src/utils.rs:35-56 | a change is written as its row |
| DiffRender.RenderLength | src/utils.rs:28-31 | k groups carry k - 1 separators of 80 characters |
| DiffRender.PlainRow | src/utils.rs:40-56 | without styling a row is labels, ` \|`, sign and text, with a line break only when the text lacks one, so every row ends with one |
| DiffRender.PlainRowColumns | src/utils.rs:40-46 | without styling, for lines up to 9999, the labels fill columns 0-7, ` \|` columns 8-9, the sign column 10, and the text starts at 11 |
| ProfileMap.Lookup | src/config/rdiff.rs:46-48 | `Some` of the stored profile exactly when the name is a key |
| ProfileMap.ValidateAllIff | src/config/rdiff.rs:67-77 | the loop succeeds exactly when every profile passes; a failure is a failing profile's own error wrapped with that profile's name |
| ProfileMap.ValidateConfig | src/config/rdiff.rs:67-77 | over any enumeration of the keys: valid exactly when every stored profile is, a failure names a failing stored profile, an empty map is valid |
| RDiff.GetProfile | src/config/rdiff.rs:46-48 | exact-name lookup: `Some` of the stored profile exactly when the name is a key |
| RDiff.ValidateProfile | src/config/rdiff.rs:79-85 | valid exactly when both requests are; `req1` is checked first, each failure with its own context |
| RDiff.ConfigValid | src/config/rdiff.rs:67-77 | valid exactly when both requests of every profile are; a failure names a failing profile; an empty config is valid |
| RDiff.Diff | src/config/rdiff.rs:56-64 | sends `req1`, then `req2`, normalises both with the same response profile and renders the diff |
| RDiff.DiffOutcome | src/config/rdiff.rs:56-64 | the diff succeeds exactly when both sends and both normalisations do; the report diffs the first text against the second; a `req1` failure is reported first |
| RDiff.SerializedFields | src/config/rdiff.rs:18 | `resp` is written exactly when it is not the default response profile |
| XReq.GetProfile | src/config/xreq.rs:33-35 | exact-name lookup, `None` when the name is absent |
| XReq.ConfigValid | src/config/xreq.rs:16-26 | valid exactly when every profile is; a failure carries a failing profile's name and its own error; an empty config is valid |

## Left out

- Network I/O: the request is handed to `Foreign.Env.execute`. The body read of `resp.text().await` is the response's `text` field, with `None` for a failed read.
- Configuration loading (`LoadConfig::load_yaml`, `from_yaml`, `src/config/mod.rs:28-38`) and serde/YAML deserialisation: file and parser I/O.
- The encoders and parsers of other crates (`Url::parse`, `query_pairs`, `serde_json`, `serde_urlencoded`, `serde_qs`, `HeaderName`/`HeaderValue::from_str`) are uninterpreted functions of `Foreign.Env`. URL serialisation is reduced to front, query and fragment.
- The line diff of the `similar` crate (`TextDiff::from_lines`, `grouped_ops(3)`, `iter_inline_changes`, `missing_newline`) is an input. `DiffRender.WellFormed` states what the row lemmas assume of `missing_newline`.
- Terminal styling of the `console` crate is `DiffRender.Painter`. The `{:?}` output of `HeaderValue` and the display of `StatusCode` are functions of `Foreign.Env`.
- `highlight_text` (`src/utils.rs:65-88`): a wrapper over syntax highlighting.
- The binaries, prompts and examples (`src/bin/rdiff.rs`, `src/bin/xreq.rs`, `src/main.rs`, the two example programs `interact.rs` and `config.rs`), and the superseded `src/config.rs`.
- Rust's `char::is_alphabetic` is a parameter of `Cli.ParseKeyVal`. The round-trip lemmas assume only `Cli.AlphabeticClass` of it.
- The response's headers are the list in the order `HeaderMap` yields them. The grouping of multiple values by name is not modelled.
- `write!` into a `String` cannot fail and is modelled as infallible.
- The constructors `DiffConfig::new`, `DiffProfile::new`, `ResponseProfile::new` and `RequestConfig::new`, and `get_inner`, only build or unwrap records. They are the datatype constructors and fields.
- `send` of `src/req.rs` (`src/req.rs:41-55`) and its `generate` (header merge at lines 62-72, query, body and dispatch at 74-94), `filter_json` and `get_content_type` behave exactly like the copies in `src/config/mod.rs`. They are modelled by the same members (`Profile.Send`, `Profile.GenerateHeaders`, `Profile.GenerateMerges`, `Normalize.FilterJson`, `Headers.MediaType`).
- Profile.FromStr: that the stored URL has no query, and that the second parse cannot panic, are stated under the hypothesis that the URL parser reads its own serialisation of the stripped URL back unchanged. The `url` crate guarantees this, but URL parsing is a parameter of the model.
- Profile.Validate: the error carries the field name (`InvalidShape("params")` or `InvalidShape("body")`), not the message with the YAML rendering of the value. A failure of that rendering is not modelled.
- Text.IsWhitespace: lists the code points of Unicode White_Space rather than deriving them from a Unicode table.
