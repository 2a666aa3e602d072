/** `ResponseProfile` of `src/config/rdiff.rs`: what to drop from a response
    before it is printed or compared. */
module ResponseFilter {

  /** Header names to leave out, and top-level body keys to remove. */
  datatype ResponseProfile = ResponseProfile(skipHeaders: seq<string>, skipBody: seq<string>)

  /** `ResponseProfile::default()`: both lists empty. */
  const Default: ResponseProfile := ResponseProfile([], [])

  /** `is_default` at the type `ResponseProfile`: equality with the default. */
  predicate IsDefault(r: ResponseProfile)
    ensures IsDefault(r) <==> r.skipHeaders == [] && r.skipBody == []
  {
    r == Default
  }

  /** The fields written when a response profile is serialised: each skip
      list is left out when empty. */
  function SerializedFields(r: ResponseProfile): (fields: seq<string>)
    ensures "skip_headers" in fields <==> r.skipHeaders != []
    ensures "skip_body" in fields <==> r.skipBody != []
    ensures fields == [] <==> IsDefault(r)
  {
    (if r.skipHeaders == [] then [] else ["skip_headers"])
    + (if r.skipBody == [] then [] else ["skip_body"])
  }
}
