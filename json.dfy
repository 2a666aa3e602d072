/** The part of `serde_json::Value` the core touches: object maps, string
    insertion through `value[key] = ...`, and the emptiness test used when
    serialising profiles. */
module Json {
  import opened Wrappers
  import opened Text

  /** A JSON value. Numbers keep their source text; the core never computes
      with them. */
  datatype Json =
    | Null
    | Bool(b: bool)
    | Number(text: string)
    | Str(s: string)
    | Array(items: seq<Json>)
    | Object(fields: map<string, Json>)

  const EmptyObject: Json := Object(map[])

  /** The entries an indexable value starts with: `Null` counts as the empty
      object, because indexing turns it into one. */
  function Fields(j: Json): map<string, Json>
    requires j.Null? || j.Object?
  {
    if j.Object? then j.fields else map[]
  }

  function Lookup(m: map<string, Json>, k: string): Option<Json> {
    if k in m then Some(m[k]) else None
  }

  /** `j[k] = Value::String(v)` (serde_json's `IndexMut<&str>`): `Null` is
      first replaced by an empty object; an object gets `k` set; indexing any
      other value panics. */
  function SetString(j: Json, k: string, v: string): (r: Result<Json>)
    ensures r.Ok? <==> j.Null? || j.Object?
    ensures r.Ok? ==> r.value.Object? && r.value.fields.Keys == Fields(j).Keys + {k}
    ensures r.Ok? ==> forall key :: Lookup(r.value.fields, key)
                                    == if key == k then Some(Str(v)) else Lookup(Fields(j), key)
  {
    match j
    case Null => Ok(Object(map[k := Str(v)]))
    case Object(m) => Ok(Object(m[k := Str(v)]))
    case _ => Err(Panic("cannot access key in a JSON value that is not an object"))
  }

  /** The overrides applied one after another, left to right, stopping at the
      first failure. */
  function SetAll(j: Json, kvs: seq<(string, string)>): Result<Json>
    decreases |kvs|
  {
    if kvs == [] then Ok(j)
    else match SetString(j, kvs[0].0, kvs[0].1)
      case Err(e) => Err(e)
      case Ok(j') => SetAll(j', kvs[1..])
  }

  /** Applying a list of string overrides to a value that is `Null` or an
      object always succeeds, with an object unless there was nothing to
      apply to a `Null`: each key given by the overrides holds its LAST value
      as a string, every other key keeps its value. */
  lemma {:induction false} SetAllLastWins(j: Json, kvs: seq<(string, string)>)
    requires j.Null? || j.Object?
    decreases |kvs|
    ensures SetAll(j, kvs).Ok?
    ensures SetAll(j, kvs).value.Object? || (SetAll(j, kvs).value.Null? && j.Null? && kvs == [])
    ensures Fields(SetAll(j, kvs).value).Keys == Fields(j).Keys + KeysOf(kvs)
    ensures forall k :: Lookup(Fields(SetAll(j, kvs).value), k)
                        == match LastValue(kvs, k)
                           case Some(v) => Some(Str(v))
                           case None => Lookup(Fields(j), k)
  {
    if kvs == [] {
      assert KeysOf(kvs) == {};
    } else {
      var j' := SetString(j, kvs[0].0, kvs[0].1).value;
      var rest := kvs[1..];
      SetAllLastWins(j', rest);
      assert kvs == [kvs[0]] + rest;
      forall k ensures LastValue(kvs, k)
                       == if LastValue(rest, k).Some? then LastValue(rest, k)
                          else if kvs[0].0 == k then Some(kvs[0].1) else None {
        LastValueCons(kvs[0], rest, k);
      }
      assert KeysOf(kvs) == {kvs[0].0} + KeysOf(rest) by {
        forall key | key in KeysOf(kvs) ensures key in {kvs[0].0} + KeysOf(rest) {
          var i :| 0 <= i < |kvs| && kvs[i].0 == key;
          if i > 0 { assert rest[i - 1].0 == key; }
        }
        forall key | key in KeysOf(rest) ensures key in KeysOf(kvs) {
          var i :| 0 <= i < |rest| && rest[i].0 == key;
          assert kvs[i + 1].0 == key;
        }
      }
    }
  }

  /** Applying overrides to a value that is neither `Null` nor an object
      panics, unless there is nothing to apply. */
  lemma SetAllPanics(j: Json, kvs: seq<(string, string)>)
    requires !j.Null? && !j.Object? && kvs != []
    ensures SetAll(j, kvs).Err? && SetAll(j, kvs).error.Panic?
  {
  }

  /** `empty_json_value`: the value is absent, `null`, or an empty object.
      Such a value is left out when a profile is serialised. */
  function EmptyJsonValue(v: Option<Json>): (r: bool)
    ensures r <==> v == None || v == Some(Null) || v == Some(EmptyObject)
  {
    v.None? || v.value.Null? || (v.value.Object? && v.value.fields == map[])
  }
}
