/**
 * Reading the global settings from the environment and discovering one
 * profile per `.json` file in the cookies directory.
 */
module ConfigLoader {
  import opened Wrappers
  import opened Text
  import opened ConfigValidator

  /** The process environment: variable name to value. */
  type Env = map<string, string>

  const UrlVar := "CAMOUFOX_INSTANCE_URL"
  const HeadlessVar := "CAMOUFOX_HEADLESS"
  const ProxyVar := "CAMOUFOX_PROXY"
  const DefaultHeadless := "virtual"

  /** `os.getenv(name)`. */
  function GetEnv(env: Env, name: string): Option<string> {
    if name in env then Some(env[name]) else None
  }

  /** `_clean_env_value`: absent and blank values are absent, others are stripped. */
  function CleanEnvValue(raw: Option<string>): (cleaned: Option<string>)
    ensures raw.None? ==> cleaned.None?
    ensures raw.Some? ==> (cleaned.None? <==> AllSpace(raw.value))
    ensures cleaned.Some? ==> cleaned.value != [] && IsStripOf(cleaned.value, raw.value)
  {
    match raw
    case None => None
    case Some(s) =>
      var stripped := Strip(s);
      if stripped == [] then None else Some(stripped)
  }

  lemma CleanEnvValueIdempotent(raw: Option<string>)
    ensures CleanEnvValue(CleanEnvValue(raw)) == CleanEnvValue(raw)
  {
    if raw.Some? && Strip(raw.value) != [] {
      StripIdempotent(raw.value);
    }
  }

  /** `[f for f in listing if f.lower().endswith('.json')]`. */
  function JsonFiles(listing: seq<string>): (files: seq<string>)
    ensures |files| <= |listing|
    ensures forall f :: f in files ==> f in listing && IsJsonName(f)
  {
    if listing == [] then []
    else (if IsJsonName(listing[0]) then [listing[0]] else []) + JsonFiles(listing[1..])
  }

  /** Every `.json` entry of the listing is kept. */
  lemma {:induction false} JsonFilesComplete(listing: seq<string>, f: string)
    requires f in listing && IsJsonName(f)
    ensures f in JsonFiles(listing)
  {
    if listing[0] != f {
      JsonFilesComplete(listing[1..], f);
    }
  }

  /** The filter keeps listing order: it distributes over concatenation. */
  lemma {:induction false} JsonFilesAppend(a: seq<string>, b: seq<string>)
    ensures JsonFiles(a + b) == JsonFiles(a) + JsonFiles(b)
  {
    if a == [] {
      assert a + b == b;
    } else {
      assert (a + b)[0] == a[0] && (a + b)[1..] == a[1..] + b;
      JsonFilesAppend(a[1..], b);
    }
  }

  /** The directory listing is empty of candidates exactly when no entry ends in `.json`. */
  lemma JsonFilesEmptyIff(listing: seq<string>)
    ensures JsonFiles(listing) == [] <==> forall f :: f in listing ==> !IsJsonName(f)
  {
    forall f | f in listing && IsJsonName(f) ensures f in JsonFiles(listing) {
      JsonFilesComplete(listing, f);
    }
  }

  datatype LoadError =
    | MissingUrl        // CAMOUFOX_INSTANCE_URL absent or blank
    | MissingCookiesDir // the cookies directory does not exist
    | ScanFailed        // listing the directory raised
    | NoCookieFiles     // no entry ends in .json

  /** Shared settings and one `{"cookie_file": f}` profile per discovered file. */
  datatype Loaded = Loaded(globals: Config, profiles: seq<Config>)

  /** One profile per file name, in order. */
  function ProfilesOf(files: seq<string>): (profiles: seq<Config>)
    ensures |profiles| == |files|
    ensures forall i :: 0 <= i < |files| ==> profiles[i] == map[CookieFileKey := files[i]]
  {
    seq(|files|, i requires 0 <= i < |files| => map[CookieFileKey := files[i]])
  }

  /** The global settings built from the cleaned shared URL and the optional variables. */
  function GlobalSettings(env: Env, url: string): (globals: Config)
    ensures globals.Keys <= {UrlKey, HeadlessKey, ProxyKey}
    ensures UrlKey in globals && globals[UrlKey] == url
    ensures HeadlessKey in globals
    ensures CleanEnvValue(GetEnv(env, HeadlessVar)).None? ==> globals[HeadlessKey] == DefaultHeadless
    ensures CleanEnvValue(GetEnv(env, HeadlessVar)).Some? ==>
      globals[HeadlessKey] == CleanEnvValue(GetEnv(env, HeadlessVar)).value
    ensures ProxyKey in globals <==> CleanEnvValue(GetEnv(env, ProxyVar)).Some?
    ensures ProxyKey in globals ==> globals[ProxyKey] == CleanEnvValue(GetEnv(env, ProxyVar)).value
  {
    var headless := match CleanEnvValue(GetEnv(env, HeadlessVar))
      case Some(h) => h
      case None => DefaultHeadless;
    var settings := map[HeadlessKey := headless, UrlKey := url];
    match CleanEnvValue(GetEnv(env, ProxyVar))
    case Some(proxy) => settings[ProxyKey := proxy]
    case None => settings
  }

  /**
   * `load_instances_from_env` with the environment, whether the cookies
   * directory exists and its listing (None when listing it raised) as inputs.
   * The URL is checked first, so a missing URL never looks at the directory.
   */
  function LoadInstancesFromEnv(env: Env, dirExists: bool, listing: Option<seq<string>>): (r: Result<Loaded, LoadError>)
    ensures r == Err(MissingUrl) <==> CleanEnvValue(GetEnv(env, UrlVar)).None?
    ensures r == Err(MissingCookiesDir) <==> CleanEnvValue(GetEnv(env, UrlVar)).Some? && !dirExists
    ensures r == Err(ScanFailed) <==>
      CleanEnvValue(GetEnv(env, UrlVar)).Some? && dirExists && listing.None?
    ensures r == Err(NoCookieFiles) <==>
      CleanEnvValue(GetEnv(env, UrlVar)).Some? && dirExists && listing.Some?
      && forall f :: f in listing.value ==> !IsJsonName(f)
    ensures r.Ok? ==>
      && CleanEnvValue(GetEnv(env, UrlVar)).Some? && listing.Some?
      && r.value.globals == GlobalSettings(env, CleanEnvValue(GetEnv(env, UrlVar)).value)
      && r.value.profiles == ProfilesOf(JsonFiles(listing.value))
      && r.value.profiles != []
  {
    match CleanEnvValue(GetEnv(env, UrlVar))
    case None => Err(MissingUrl)
    case Some(url) =>
      var globals := GlobalSettings(env, url);
      if !dirExists then Err(MissingCookiesDir)
      else
        match listing
        case None => Err(ScanFailed)
        case Some(entries) =>
          var files := JsonFiles(entries);
          JsonFilesEmptyIff(entries);
          if files == [] then Err(NoCookieFiles)
          else Ok(Loaded(globals, ProfilesOf(files)))
  }
}
