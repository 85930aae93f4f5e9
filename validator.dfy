/**
 * Per-profile configuration: the merge of the global settings with one
 * profile, and the checks a merged configuration must pass before a worker
 * is started for it.
 */
module ConfigValidator {
  import opened Text
  import opened Paths

  /** A configuration dictionary: setting name to value. */
  type Config = map<string, string>

  const CookieFileKey := "cookie_file"
  const UrlKey := "url"
  const HeadlessKey := "headless"
  const ProxyKey := "proxy"

  /** `final_config = global_settings.copy(); final_config.update(profile)`. */
  function Merge(globals: Config, profile: Config): Config {
    globals + profile
  }

  /** The merged configuration has every key of both; the profile's values win over the globals. */
  lemma MergeOverrides(globals: Config, profile: Config)
    ensures var merged := Merge(globals, profile);
      && merged.Keys == globals.Keys + profile.Keys
      && (forall k :: k in profile ==> merged[k] == profile[k])
      && (forall k :: k in globals && k !in profile ==> merged[k] == globals[k])
  {
  }

  /** Why a profile is skipped, one reason per check. */
  datatype Rejection =
    | MissingField   // no cookie_file or no url
    | NotBaseName    // the name carries a directory part
    | NotJson        // the name does not end in .json
    | OutsideRoot    // the resolved file is not under the cookies directory

  datatype Verdict = Accept | Reject(reason: Rejection)

  /** The checks of lines 86-101, which decide acceptance on their own (see `Validate`). */
  predicate Admissible(cfg: Config) {
    CookieFileKey in cfg && UrlKey in cfg && '/' !in cfg[CookieFileKey] && IsJsonName(cfg[CookieFileKey])
  }

  /**
   * The four checks, in order; the first that fails decides the reason.
   * Under lexical resolution the fourth can no longer fail once the second
   * and third have passed, so acceptance depends on the first three alone.
   */
  function Validate(cfg: Config, root: Root): (v: Verdict)
    ensures v == Reject(MissingField) <==> CookieFileKey !in cfg || UrlKey !in cfg
    ensures v == Reject(NotBaseName) <==>
      CookieFileKey in cfg && UrlKey in cfg && '/' in cfg[CookieFileKey]
    ensures v == Reject(NotJson) <==>
      CookieFileKey in cfg && UrlKey in cfg && '/' !in cfg[CookieFileKey] && !IsJsonName(cfg[CookieFileKey])
    ensures v != Reject(OutsideRoot)
    ensures v == Accept ==> Within(root, Resolve(root, cfg[CookieFileKey]))
    ensures v == Accept <==> Admissible(cfg)
  {
    if CookieFileKey !in cfg || UrlKey !in cfg then Reject(MissingField)
    else
      var candidate := cfg[CookieFileKey];
      // `os.path.basename(candidate) != candidate`, which BasenameFixedIff shows is this test
      if '/' in candidate then Reject(NotBaseName)
      else if !IsJsonName(candidate) then Reject(NotJson)
      else
        IsJsonNameIff(candidate);
        ResolvePlainName(root, candidate);
        if !Within(root, Resolve(root, candidate)) then Reject(OutsideRoot)
        else Accept
  }
}
