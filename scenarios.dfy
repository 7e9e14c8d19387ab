/**
  The library's documented behaviour, each case starting from a fresh store and going through the
  public entry points: nothing configured, preferred over override, override,
  global table, environment, named services, instance isolation and the adapter.
 */
module Scenarios {
  import opened Wrappers
  import opened Urls
  import opened EnvKeys
  import opened Core
  import opened Manager
  import opened Adapters
  import opened Api

  /** A host where no runtime defines any variable. */
  const NO_ENV := HostEnv(map[], map[], map[])

  /** The environment keys tried for `"default"`. */
  lemma DefaultChain()
    ensures EnvKeyChain(DEFAULT_NAME) == [KAZVIZIAN_KEY, GENERIC_KEY]
  {
  }

  /** With nothing configured, `getBaseUrl()` is `""`. */
  method NothingSet() returns (r: string)
    ensures r == ""
  {
    var store := new OverrideStore();
    r := GetBaseUrl(store, None, None, NO_ENV);
    DefaultChain();
    FirstEnvHitNone(NO_ENV, EnvKeyChain(DEFAULT_NAME));
  }

  /** `setBaseUrl("https://a.com")`, then `getBaseUrl("https://b.com/")` is `"https://b.com"`. */
  method PreferredTakesPrecedence() returns (r: string)
    ensures r == "https://b.com"
  {
    var store := new OverrideStore();
    SetBaseUrl(store, Some("https://a.com"));
    r := GetBaseUrl(store, Some("https://b.com/"), None, NO_ENV);
    NormalizeBaseDropsOneSlash("https://b.com");
    assert "https://b.com" + "/" == "https://b.com/";
  }

  /** `setBaseUrl("https://a.com/")`, then `getBaseUrl()` is `"https://a.com"`. */
  method OverrideIsUsed() returns (r: string)
    ensures r == "https://a.com"
  {
    var store := new OverrideStore();
    SetBaseUrl(store, Some("https://a.com/"));
    NormalizeBaseDropsOneSlash("https://a.com");
    assert "https://a.com" + "/" == "https://a.com/";
    r := GetBaseUrl(store, None, None, NO_ENV);
  }

  /** A global table `{ default: "https://g.com/" }` makes `getBaseUrl()` `"https://g.com"`. */
  method ReadsFromGlobalMap() returns (r: string)
    ensures r == "https://g.com"
  {
    var store := new OverrideStore();
    r := GetBaseUrl(store, None, Some(map[DEFAULT_NAME := "https://g.com/"]), NO_ENV);
    NormalizeBaseDropsOneSlash("https://g.com");
    assert "https://g.com" + "/" == "https://g.com/";
  }

  /** `KAZVIZIAN_BASE_URL="https://env.com/"` in Node's environment makes `getBaseUrl()` `"https://env.com"`. */
  method ReadsFromEnv() returns (r: string)
    ensures r == "https://env.com"
  {
    var store := new OverrideStore();
    var host := HostEnv(map[KAZVIZIAN_KEY := "https://env.com/"], map[], map[]);
    r := GetBaseUrl(store, None, None, host);
    DefaultChain();
    FirstEnvHitIsFirst(host, EnvKeyChain(DEFAULT_NAME), 0);
    NormalizeBaseDropsOneSlash("https://env.com");
    assert "https://env.com" + "/" == "https://env.com/";
  }

  /** `CONTENT_BASE_URL` in the environment answers `getBaseUrlFor("content")`. */
  method NamedServiceEnvKey() returns (r: string)
    ensures r == "https://content.example.com"
  {
    var store := new OverrideStore();
    var host := HostEnv(map["CONTENT_BASE_URL" := "https://content.example.com/"], map[], map[]);
    r := GetBaseUrlFor(store, "content", None, None, host);
    ToEnvKeyExampleContent();
    assert EnvKeyChain("content")[0] == "CONTENT_BASE_URL";
    FirstEnvHitIsFirst(host, EnvKeyChain("content"), 0);
    NormalizeBaseDropsOneSlash("https://content.example.com");
    assert "https://content.example.com" + "/" == "https://content.example.com/";
  }

  /**
    A manager seeded with `{ content: "https://c.com/" }` answers `"https://c.com"`
    for `"content"`, before and after a process-wide `setBaseUrlFor("content", …)`.
   */
  method ManagerIsolation() returns (before: string, after: string)
    ensures before == "https://c.com" && after == "https://c.com"
  {
    var store := new OverrideStore();
    NormalizeBaseDropsOneSlash("https://c.com");
    assert "https://c.com" + "/" == "https://c.com/";
    var mgr := new BaseUrlManager(store, Some(map["content" := "https://c.com/"]));
    before := mgr.GetBaseUrlFor("content", None, None, NO_ENV);
    SetBaseUrlFor(store, "content", Some("https://x.com/"));
    after := mgr.GetBaseUrlFor("content", None, None, NO_ENV);
  }

  /** An override made only of slashes is stored as `""` and resolution falls through to the environment. */
  method SlashOnlyOverrideFallsThrough() returns (stored: Option<string>, r: string)
    ensures stored == Some("")
    ensures r == "https://env.com"
  {
    var store := new OverrideStore();
    SetBaseUrl(store, Some("///"));
    NormalizeBaseExamples();
    stored := DebugGetOverride(store, None);
    var host := HostEnv(map[], map[GENERIC_KEY := "https://env.com/"], map[]);
    r := GetBaseUrl(store, None, None, host);
    DefaultChain();
    FirstEnvHitIsFirst(host, EnvKeyChain(DEFAULT_NAME), 1);
    NormalizeBaseDropsOneSlash("https://env.com");
    assert "https://env.com" + "/" == "https://env.com/";
  }

  /**
    The adapter skips a non-string `KAZVIZIAN_BASE_URL`, takes `VITE_BASE_URL`, and
    the `"default"` override becomes its normal form.
   */
  method AdapterTakesFirstString() returns (stored: Option<string>)
    ensures stored == Some("https://v.com")
  {
    var store := new OverrideStore();
    var env: EnvObject := map["KAZVIZIAN_BASE_URL" := NonString, "VITE_BASE_URL" := Str("https://v.com/")];
    SetBaseUrlFromImportMetaEnv(store, Some(env), None);
    FirstStringValueIsFirst(env, DEFAULT_KEYS, 1);
    NormalizeBaseDropsOneSlash("https://v.com");
    assert "https://v.com" + "/" == "https://v.com/";
    stored := DebugGetOverride(store, None);
  }

  /** The adapter ignores a missing env object. */
  method AdapterWithoutEnv() returns (stored: Option<string>)
    ensures stored == Some("https://a.com")
  {
    var store := new OverrideStore();
    SetBaseUrl(store, Some("https://a.com"));
    NoTrailingSlashIsFixed("https://a.com");
    SetBaseUrlFromImportMetaEnv(store, None, None);
    stored := DebugGetOverride(store, None);
  }
}
