/** `RequestConfig` of `src/config/xreq.rs`: request profiles by name. */
module XReq {
  import opened Wrappers
  import opened Profile
  import opened ProfileMap

  datatype RequestConfig = RequestConfig(profiles: map<string, RequestProfile>)

  /** `RequestConfig::get_profile`: exact-name lookup. */
  function GetProfile(c: RequestConfig, name: string): (r: Option<RequestProfile>)
    ensures r.Some? <==> name in c.profiles
    ensures r.Some? ==> r.value == c.profiles[name]
  {
    Lookup(c.profiles, name)
  }

  /** `RequestConfig::validate`, with `order` the order the map yields its
      names in. */
  function ValidateConfig(c: RequestConfig, order: seq<string>): Result<()>
    requires forall k :: k in order ==> k in c.profiles
  {
    ValidateAll(c.profiles, order, Validate)
  }

  /** A request config is valid exactly when every profile is; a failure
      names a profile that fails, with that profile's own error inside; an
      empty config is valid. */
  lemma ConfigValid(c: RequestConfig, order: seq<string>)
    requires Enumerates(order, c.profiles)
    ensures ValidateConfig(c, order).Ok? <==> forall name :: name in c.profiles ==> Validate(c.profiles[name]).Ok?
    ensures ValidateConfig(c, order).Err? ==>
              exists name :: name in c.profiles
                             && Validate(c.profiles[name]).Err?
                             && ValidateConfig(c, order).error
                                == Context(ValidateFailed + name, Validate(c.profiles[name]).error)
    ensures c.profiles == map[] ==> ValidateConfig(c, order) == Ok(())
  {
    ProfileMap.ValidateConfig(c.profiles, order, Validate);
  }
}
