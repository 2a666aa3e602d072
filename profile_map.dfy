/** What `DiffConfig` and `RequestConfig` share: a map from profile names to
    profiles, looked up by exact name, and validated profile by profile in
    the iteration order of the map, stopping at the first failure. */
module ProfileMap {
  import opened Wrappers

  const ValidateFailed: string := "failed to validate profile: "

  /** `get_profile`: the profile stored under exactly `name`, if any. */
  function Lookup<P>(profiles: map<string, P>, name: string): (r: Option<P>)
    ensures r.Some? <==> name in profiles
    ensures r.Some? ==> r.value == profiles[name]
  {
    if name in profiles then Some(profiles[name]) else None
  }

  /** The order in which a `HashMap` yields its keys: each key exactly once.
      Which order it is the model leaves open. */
  ghost predicate Enumerates<P>(order: seq<string>, profiles: map<string, P>) {
    (forall k :: k in profiles <==> k in order)
    && (forall i, j :: 0 <= i < j < |order| ==> order[i] != order[j])
  }

  /** The validation loop: each profile in turn; the first failure is
      returned with the profile's name attached. */
  function ValidateAll<P>(profiles: map<string, P>, order: seq<string>, check: P -> Result<()>): Result<()>
    requires forall k :: k in order ==> k in profiles
    decreases |order|
  {
    if order == [] then Ok(())
    else match check(profiles[order[0]])
      case Err(e) => Err(Context(ValidateFailed + order[0], e))
      case Ok(_) => ValidateAll(profiles, order[1..], check)
  }

  /** Validation succeeds exactly when every profile passes its own check,
      whatever the iteration order; a failure names a profile that fails
      and carries that profile's own error. */
  lemma {:induction false} ValidateAllIff<P>(profiles: map<string, P>, order: seq<string>, check: P -> Result<()>)
    requires forall k :: k in order ==> k in profiles
    decreases |order|
    ensures ValidateAll(profiles, order, check).Ok? <==> forall i :: 0 <= i < |order| ==> check(profiles[order[i]]).Ok?
    ensures ValidateAll(profiles, order, check).Err? ==>
              exists i :: 0 <= i < |order|
                          && check(profiles[order[i]]).Err?
                          && ValidateAll(profiles, order, check).error
                             == Context(ValidateFailed + order[i], check(profiles[order[i]]).error)
  {
    if order != [] {
      ValidateAllIff(profiles, order[1..], check);
      if check(profiles[order[0]]).Ok? {
        forall i | 0 <= i < |order[1..]| ensures order[1..][i] == order[i + 1] {}
        if ValidateAll(profiles, order, check).Ok? {
          forall i | 0 <= i < |order| ensures check(profiles[order[i]]).Ok? {
            if i > 0 { assert order[i] == order[1..][i - 1]; }
          }
        } else {
          var i :| 0 <= i < |order[1..]|
                   && check(profiles[order[1..][i]]).Err?
                   && ValidateAll(profiles, order[1..], check).error
                      == Context(ValidateFailed + order[1..][i], check(profiles[order[1..][i]]).error);
          assert order[1..][i] == order[i + 1];
        }
      } else {
        assert ValidateAll(profiles, order, check).error
               == Context(ValidateFailed + order[0], check(profiles[order[0]]).error);
      }
    }
  }

  /** Over an enumeration of the keys: validation succeeds exactly when
      every stored profile passes, and a failure names a stored profile that
      fails. An empty map always validates. */
  lemma ValidateConfig<P>(profiles: map<string, P>, order: seq<string>, check: P -> Result<()>)
    requires Enumerates(order, profiles)
    ensures ValidateAll(profiles, order, check).Ok? <==> forall k :: k in profiles ==> check(profiles[k]).Ok?
    ensures ValidateAll(profiles, order, check).Err? ==>
              exists name :: name in profiles
                             && check(profiles[name]).Err?
                             && ValidateAll(profiles, order, check).error
                                == Context(ValidateFailed + name, check(profiles[name]).error)
    ensures profiles == map[] ==> ValidateAll(profiles, order, check) == Ok(())
  {
    ValidateAllIff(profiles, order, check);
    if ValidateAll(profiles, order, check).Ok? {
      forall k | k in profiles ensures check(profiles[k]).Ok? {
        var i :| 0 <= i < |order| && order[i] == k;
      }
    }
  }
}
