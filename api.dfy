/**
  The public entry points of `src/index.ts`, each a delegation to the process-wide
  override store and resolver. The store is passed explicitly, as are the global
  table and the environment the resolver reads.
 */
module Api {
  import opened Wrappers
  import opened Urls
  import opened Core

  /** `setBaseUrl(url)`: `setOverride("default", url)`. */
  method SetBaseUrl(store: OverrideStore, url: Option<string>)
    modifies store
    ensures store.overrides == Assign(old(store.overrides), DEFAULT_NAME, url)
    ensures old(store.Valid()) ==> store.Valid()
  {
    store.SetOverride(DEFAULT_NAME, url);
  }

  /** `setBaseUrlFor(name, url)`: `setOverride(name, url)`. */
  method SetBaseUrlFor(store: OverrideStore, name: string, url: Option<string>)
    modifies store
    ensures store.overrides == Assign(old(store.overrides), name, url)
    ensures old(store.Valid()) ==> store.Valid()
  {
    store.SetOverride(name, url);
  }

  /** `getBaseUrl(preferred)`: `resolveBaseUrl({ preferred, name: "default" })`. */
  method GetBaseUrl(store: OverrideStore, preferred: Option<string>,
                    globals: Option<map<string, string>>, host: HostEnv)
    returns (r: string)
    ensures r == Resolution(store.overrides, globals, host, ResolveOptions(Some(DEFAULT_NAME), preferred))
    ensures store.Valid() ==> IsNormalized(r)
  {
    r := store.ResolveBaseUrl(ResolveOptions(Some(DEFAULT_NAME), preferred), globals, host);
  }

  /** `getBaseUrlFor(name, preferred)`: `resolveBaseUrl({ name, preferred })`. */
  method GetBaseUrlFor(store: OverrideStore, name: string, preferred: Option<string>,
                       globals: Option<map<string, string>>, host: HostEnv)
    returns (r: string)
    ensures r == Resolution(store.overrides, globals, host, ResolveOptions(Some(name), preferred))
    ensures store.Valid() ==> IsNormalized(r)
  {
    r := store.ResolveBaseUrl(ResolveOptions(Some(name), preferred), globals, host);
  }

  /** `__debug_getOverride(name = "default")`: the stored override, read only. */
  function DebugGetOverride(store: OverrideStore, name: Option<string>): (r: Option<string>)
    reads store
    ensures name.None? ==> r == Lookup(store.overrides, DEFAULT_NAME)
    ensures name.Some? ==> r == Lookup(store.overrides, name.value)
    ensures store.Valid() && r.Some? ==> IsNormalized(r.value)
  {
    store.GetOverride(name.GetOr(DEFAULT_NAME))
  }

  /** `resolveBaseUrl({})` resolves as `resolveBaseUrl({ name: "default" })`: an absent name means `"default"`. */
  lemma DefaultIsNamedDefault(overrides: map<string, string>, globals: Option<map<string, string>>,
                              host: HostEnv, preferred: Option<string>)
    ensures Resolution(overrides, globals, host, ResolveOptions(Some(DEFAULT_NAME), preferred))
         == Resolution(overrides, globals, host, ResolveOptions(None, preferred))
  {
  }

  /** After `setBaseUrlFor(name, url)`, with `url` of non-empty normal form, `getBaseUrlFor(name)` answers that normal form. */
  lemma SetThenGet(overrides: map<string, string>, globals: Option<map<string, string>>,
                   host: HostEnv, name: string, url: string)
    requires NormalizeBase(url) != ""
    ensures Resolution(Assign(overrides, name, Some(url)), globals, host, ResolveOptions(Some(name), None))
         == NormalizeBase(url)
  {
  }

  /**
    After `setBaseUrlFor(name, url)` with an absent or empty `url`, or with one whose
    normal form is empty, `getBaseUrlFor(name)` answers as if nothing had been
    stored for `name`.
   */
  lemma ClearedFallsThrough(overrides: map<string, string>, globals: Option<map<string, string>>,
                            host: HostEnv, name: string, url: Option<string>)
    requires !Present(url) || NormalizeBase(url.value) == ""
    ensures Resolution(Assign(overrides, name, url), globals, host, ResolveOptions(Some(name), None))
         == Resolution(overrides - {name}, globals, host, ResolveOptions(Some(name), None))
  {
  }
}
