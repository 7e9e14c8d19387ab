/**
  `createBaseUrlManager`: an instance with its own private map of base URLs,
  seeded once and updated by `setBaseUrl`/`setBaseUrlFor`, that falls back to the
  process-wide resolver only for names it has no non-empty entry for.
 */
module Manager {
  import opened Wrappers
  import opened Urls
  import opened Core

  /**
    The seeding loop of `createBaseUrlManager`: every entry of `initial`, with its
    value normalized; no entries when `initial` is absent.
   */
  method SeedLocal(initial: Option<map<string, string>>) returns (local: map<string, string>)
    ensures initial.None? ==> local == map[]
    ensures initial.Some? ==> local.Keys == initial.value.Keys
    ensures initial.Some? ==> forall k | k in local :: local[k] == NormalizeBase(initial.value[k])
    ensures AllNormalized(local)
  {
    local := map[];
    if initial.Some? {
      var m := initial.value;
      var pending := m.Keys;
      while pending != {}
        invariant pending <= m.Keys
        invariant local.Keys == m.Keys - pending
        invariant forall k | k in local :: local[k] == NormalizeBase(m[k])
        decreases pending
      {
        var k :| k in pending;
        local := local[k := NormalizeBase(m[k])];
        pending := pending - {k};
      }
    }
  }

  /**
    What the manager's `getFor(name, preferred)` answers: a non-empty preferred
    value, else a non-empty private entry, else the process-wide resolution.
   */
  function ManagerResolution(local: map<string, string>, overrides: map<string, string>,
                             globals: Option<map<string, string>>, host: HostEnv,
                             name: string, preferred: Option<string>): string
  {
    if Present(preferred) then NormalizeBase(preferred.value)
    else if Present(Lookup(local, name)) then local[name]
    else Resolution(overrides, globals, host, ResolveOptions(Some(name), None))
  }

  /** A non-empty private entry isolates the answer from every process-wide source. */
  lemma ManagerIsolation(local: map<string, string>, o1: map<string, string>, o2: map<string, string>,
                         g1: Option<map<string, string>>, g2: Option<map<string, string>>,
                         h1: HostEnv, h2: HostEnv, name: string, preferred: Option<string>)
    requires Present(Lookup(local, name))
    ensures ManagerResolution(local, o1, g1, h1, name, preferred)
         == ManagerResolution(local, o2, g2, h2, name, preferred)
  {
  }

  /** Without a preferred value or a non-empty private entry, the instance defers to `resolveBaseUrl`. */
  lemma ManagerFallback(local: map<string, string>, overrides: map<string, string>,
                        globals: Option<map<string, string>>, host: HostEnv,
                        name: string, preferred: Option<string>)
    requires !Present(preferred) && !Present(Lookup(local, name))
    ensures ManagerResolution(local, overrides, globals, host, name, preferred)
         == Resolution(overrides, globals, host, ResolveOptions(Some(name), None))
  {
  }

  /** With a normalized private map and store, the instance only answers normalized base URLs. */
  lemma ManagerNormalized(local: map<string, string>, overrides: map<string, string>,
                          globals: Option<map<string, string>>, host: HostEnv,
                          name: string, preferred: Option<string>)
    requires AllNormalized(local) && AllNormalized(overrides)
    ensures IsNormalized(ManagerResolution(local, overrides, globals, host, name, preferred))
  {
    if !Present(preferred) && !Present(Lookup(local, name)) {
      ResolutionNormalized(overrides, globals, host, ResolveOptions(Some(name), None));
    } else if !Present(preferred) {
      assert IsNormalized(local[name]);
    }
  }

  /** The object `createBaseUrlManager` returns, with the closure's `local` map as a field. */
  class BaseUrlManager {
    var local: map<string, string>
    /** The process-wide store the fallback reads. */
    const store: OverrideStore

    /** The private map holds normalized base URLs only. */
    ghost predicate Valid()
      reads this
    {
      AllNormalized(local)
    }

    /** `createBaseUrlManager(initial)`. */
    constructor(store: OverrideStore, initial: Option<map<string, string>>)
      ensures this.store == store
      ensures initial.None? ==> local == map[]
      ensures initial.Some? ==> local.Keys == initial.value.Keys
      ensures initial.Some? ==> forall k | k in local :: local[k] == NormalizeBase(initial.value[k])
      ensures Valid()
    {
      this.store := store;
      var seeded := SeedLocal(initial);
      local := seeded;
    }

    /** `getBaseUrlFor(name, preferred)`. */
    method GetBaseUrlFor(name: string, preferred: Option<string>,
                         globals: Option<map<string, string>>, host: HostEnv)
      returns (r: string)
      ensures r == ManagerResolution(local, store.overrides, globals, host, name, preferred)
      ensures Valid() && store.Valid() ==> IsNormalized(r)
    {
      if Valid() && store.Valid() {
        ManagerNormalized(local, store.overrides, globals, host, name, preferred);
      }
      if Present(preferred) {
        return NormalizeBase(preferred.value);
      }
      var entry := Lookup(local, name);
      if Present(entry) {
        return entry.value;
      }
      r := store.ResolveBaseUrl(ResolveOptions(Some(name), None), globals, host);
    }

    /** `getBaseUrl(preferred)`: the same lookup for `"default"`. */
    method GetBaseUrl(preferred: Option<string>, globals: Option<map<string, string>>, host: HostEnv)
      returns (r: string)
      ensures r == ManagerResolution(local, store.overrides, globals, host, DEFAULT_NAME, preferred)
      ensures Valid() && store.Valid() ==> IsNormalized(r)
    {
      r := GetBaseUrlFor(DEFAULT_NAME, preferred, globals, host);
    }

    /** `setBaseUrlFor(name, url)`: changes the private map only. */
    method SetBaseUrlFor(name: string, url: Option<string>)
      modifies this
      ensures local == Assign(old(local), name, url)
      ensures store.overrides == old(store.overrides)
      ensures old(Valid()) ==> Valid()
    {
      if !Present(url) {
        local := local - {name};
      } else {
        local := local[name := NormalizeBase(url.value)];
      }
    }

    /** `setBaseUrl(url)`: `setBaseUrlFor` on `"default"`. */
    method SetBaseUrl(url: Option<string>)
      modifies this
      ensures local == Assign(old(local), DEFAULT_NAME, url)
      ensures store.overrides == old(store.overrides)
      ensures old(Valid()) ==> Valid()
    {
      SetBaseUrlFor(DEFAULT_NAME, url);
    }
  }
}
