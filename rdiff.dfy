/** `DiffConfig`, `DiffProfile` and the `diff` orchestration of
    `src/config/rdiff.rs`: two requests built from the same overrides, both
    responses normalised by the same response profile, and the line diff of
    the two texts rendered as a report. */
module RDiff {
  import opened Wrappers
  import opened Http
  import opened Foreign
  import opened Cli
  import opened Profile
  import opened ResponseFilter
  import opened Normalize
  import opened DiffRender
  import opened ProfileMap

  datatype DiffProfile = DiffProfile(req1: RequestProfile, req2: RequestProfile, resp: ResponseProfile)

  /** Profiles by name (`#[serde(flatten)]` over a `HashMap`). */
  datatype DiffConfig = DiffConfig(profiles: map<string, DiffProfile>)

  /** `DiffConfig::get_profile`: exact-name lookup. */
  function GetProfile(c: DiffConfig, name: string): (r: Option<DiffProfile>)
    ensures r.Some? <==> name in c.profiles
    ensures r.Some? ==> r.value == c.profiles[name]
  {
    Lookup(c.profiles, name)
  }

  /** `DiffProfile::validate`: `req1` first, then `req2`, each failure with
      its own context. */
  function ValidateProfile(p: DiffProfile): (r: Result<()>)
    ensures r.Ok? <==> Validate(p.req1).Ok? && Validate(p.req2).Ok?
    ensures Validate(p.req1).Err? ==> r == Err(Context("req1 validate failed", Validate(p.req1).error))
    ensures Validate(p.req1).Ok? && Validate(p.req2).Err? ==>
              r == Err(Context("req2 validate failed", Validate(p.req2).error))
  {
    match Validate(p.req1)
    case Err(e) => Err(Context("req1 validate failed", e))
    case Ok(_) =>
      match Validate(p.req2)
      case Err(e) => Err(Context("req2 validate failed", e))
      case Ok(_) => Ok(())
  }

  /** `DiffConfig::validate`, with `order` the order the map yields its
      names in. */
  function ValidateConfig(c: DiffConfig, order: seq<string>): Result<()>
    requires forall k :: k in order ==> k in c.profiles
  {
    ValidateAll(c.profiles, order, ValidateProfile)
  }

  /** A diff config is valid exactly when both requests of every profile
      are; a failure names a profile whose requests do not both validate,
      and an empty config is valid. */
  lemma ConfigValid(c: DiffConfig, order: seq<string>)
    requires Enumerates(order, c.profiles)
    ensures ValidateConfig(c, order).Ok? <==>
              forall name :: name in c.profiles ==>
                Validate(c.profiles[name].req1).Ok? && Validate(c.profiles[name].req2).Ok?
    ensures ValidateConfig(c, order).Err? ==>
              exists name :: name in c.profiles
                             && ValidateProfile(c.profiles[name]).Err?
                             && ValidateConfig(c, order).error
                                == Context(ValidateFailed + name, ValidateProfile(c.profiles[name]).error)
    ensures c.profiles == map[] ==> ValidateConfig(c, order) == Ok(())
  {
    ProfileMap.ValidateConfig(c.profiles, order, ValidateProfile);
  }

  /** `DiffProfile::diff`: send `req1`, send `req2`, normalise the first
      response, then the second, and render the diff of the two texts; the
      first failure is the result. */
  function DiffSpec(dp: DiffProfile, args: ExtraArgs, env: Env,
                    lineDiff: (string, string) -> seq<Group>, painter: Painter): Result<string> {
    match SendSpec(dp.req1, args, env)
    case Err(e) => Err(e)
    case Ok(resp1) =>
      match SendSpec(dp.req2, args, env)
      case Err(e) => Err(e)
      case Ok(resp2) =>
        match Normalize.FilterTextSpec(resp1, dp.resp, env)
        case Err(e) => Err(e)
        case Ok(text1) =>
          match Normalize.FilterTextSpec(resp2, dp.resp, env)
          case Err(e) => Err(e)
          case Ok(text2) => Ok(Render(lineDiff(text1, text2), painter))
  }

  method Diff(dp: DiffProfile, args: ExtraArgs, env: Env,
              lineDiff: (string, string) -> seq<Group>, painter: Painter) returns (r: Result<string>)
    ensures r == DiffSpec(dp, args, env, lineDiff, painter)
  {
    var resp1 := Send(dp.req1, args, env);
    if resp1.Err? {
      return Err(resp1.error);
    }
    var resp2 := Send(dp.req2, args, env);
    if resp2.Err? {
      return Err(resp2.error);
    }
    var text1 := Normalize.FilterText(resp1.value, dp.resp, env);
    if text1.Err? {
      return Err(text1.error);
    }
    var text2 := Normalize.FilterText(resp2.value, dp.resp, env);
    if text2.Err? {
      return Err(text2.error);
    }
    var output := DiffText(text1.value, text2.value, lineDiff, painter);
    r := Ok(output);
  }

  /** The diff succeeds exactly when both requests are sent and both
      responses normalise with the same response profile; the report is
      then the rendering of the diff from the first text to the second. A
      failure of `req1` is reported even when `req2` would fail too. */
  lemma DiffOutcome(dp: DiffProfile, args: ExtraArgs, env: Env,
                    lineDiff: (string, string) -> seq<Group>, painter: Painter)
    ensures DiffSpec(dp, args, env, lineDiff, painter).Ok? <==>
              SendSpec(dp.req1, args, env).Ok? && SendSpec(dp.req2, args, env).Ok?
              && Normalize.FilterTextSpec(SendSpec(dp.req1, args, env).value, dp.resp, env).Ok?
              && Normalize.FilterTextSpec(SendSpec(dp.req2, args, env).value, dp.resp, env).Ok?
    ensures DiffSpec(dp, args, env, lineDiff, painter).Ok? ==>
              DiffSpec(dp, args, env, lineDiff, painter).value
              == Render(lineDiff(Normalize.FilterTextSpec(SendSpec(dp.req1, args, env).value, dp.resp, env).value,
                                 Normalize.FilterTextSpec(SendSpec(dp.req2, args, env).value, dp.resp, env).value),
                        painter)
    ensures SendSpec(dp.req1, args, env).Err? ==>
              DiffSpec(dp, args, env, lineDiff, painter) == Err(SendSpec(dp.req1, args, env).error)
  {
  }

  /** `resp` is written when a diff profile is serialised exactly when it is
      not the default response profile. */
  function SerializedFields(dp: DiffProfile): (r: seq<string>)
    ensures "req1" in r && "req2" in r
    ensures "resp" in r <==> !IsDefault(dp.resp)
  {
    ["req1", "req2"] + (if IsDefault(dp.resp) then [] else ["resp"])
  }
}
