/**
  The process-wide override store and the precedence resolver: `setOverride`,
  `getOverride`, `readFromGlobals`, `envGet` and `resolveBaseUrl`.

  JavaScript's `string | undefined` is `Option<string>`, and a value is "truthy"
  (`if (o)`) exactly when it is `Present`: defined and non-empty.
 */
module Core {
  import opened Wrappers
  import opened Urls
  import opened EnvKeys

  /** The service name used when none is given. */
  const DEFAULT_NAME := "default"
  /** The library-specific environment key, tried after the per-service key. */
  const KAZVIZIAN_KEY := "KAZVIZIAN_BASE_URL"
  /** The generic environment key, tried last. */
  const GENERIC_KEY := "BASE_URL"

  /** JavaScript truthiness of a `string | undefined`. */
  predicate Present(v: Option<string>) {
    v.Some? && v.value != ""
  }

  /** `m[k]` on a plain object: `undefined` when the key is missing. */
  function Lookup(m: map<string, string>, k: string): Option<string> {
    if k in m then Some(m[k]) else None
  }

  /** Every stored base URL is in normal form. */
  ghost predicate AllNormalized(m: map<string, string>) {
    forall k | k in m :: IsNormalized(m[k])
  }

  /**
    The dictionary update shared by `setOverride` and the manager's `set`/`setFor`:
    an absent or empty value deletes the key, any other value is stored normalized.
   */
  function Assign(m: map<string, string>, key: string, value: Option<string>): (r: map<string, string>)
    ensures !Present(value) ==> key !in r
    ensures Present(value) ==> key in r && r[key] == NormalizeBase(value.value)
    ensures forall k | k != key :: (k in r <==> k in m) && (k in r ==> r[k] == m[k])
    ensures AllNormalized(m) ==> AllNormalized(r)
  {
    if !Present(value) then m - {key} else m[key := NormalizeBase(value.value)]
  }

  /**
    The variables of the three runtimes `envGet` probes. A runtime that is absent,
    or whose access throws, is an empty map.
   */
  datatype HostEnv = HostEnv(node: map<string, string>, bun: map<string, string>, deno: map<string, string>)

  /** One runtime's answer, kept only when it is a non-empty string. */
  function RuntimeGet(vars: map<string, string>, name: string): Option<string> {
    if name in vars && vars[name] != "" then Some(vars[name]) else None
  }

  /** `envGet`: the first runtime (Node, then Bun, then Deno) with a non-empty value. */
  function EnvGet(host: HostEnv, name: string): (r: Option<string>)
    ensures r.Some? ==> r.value != ""
    ensures r.None? <==>
      RuntimeGet(host.node, name).None? && RuntimeGet(host.bun, name).None? && RuntimeGet(host.deno, name).None?
    ensures RuntimeGet(host.node, name).Some? ==> r == RuntimeGet(host.node, name)
    ensures RuntimeGet(host.node, name).None? && RuntimeGet(host.bun, name).Some? ==> r == RuntimeGet(host.bun, name)
    ensures RuntimeGet(host.node, name).None? && RuntimeGet(host.bun, name).None? ==> r == RuntimeGet(host.deno, name)
  {
    var node := RuntimeGet(host.node, name);
    var bun := RuntimeGet(host.bun, name);
    if node.Some? then node else if bun.Some? then bun else RuntimeGet(host.deno, name)
  }

  /** `readFromGlobals`: a non-empty entry of the optional global table. */
  function ReadFromGlobals(globals: Option<map<string, string>>, key: string): (r: Option<string>)
    ensures r.Some? <==> globals.Some? && key in globals.value && globals.value[key] != ""
    ensures r.Some? ==> r.value == globals.value[key]
  {
    if globals.Some? && key in globals.value && globals.value[key] != "" then Some(globals.value[key]) else None
  }

  /** The environment keys `resolveBaseUrl` tries, in order. */
  function EnvKeyChain(name: string): seq<string> {
    (if name != DEFAULT_NAME then [ToEnvKey(name)] else []) + [KAZVIZIAN_KEY, GENERIC_KEY]
  }

  /** The value of the first key in `keys` that the environment defines. */
  function FirstEnvHit(host: HostEnv, keys: seq<string>): Option<string> {
    if keys == [] then None
    else
      var v := EnvGet(host, keys[0]);
      if v.Some? then v else FirstEnvHit(host, keys[1..])
  }

  /** The first defined key decides the hit. */
  lemma {:induction false} FirstEnvHitIsFirst(host: HostEnv, keys: seq<string>, i: nat)
    requires i < |keys| && EnvGet(host, keys[i]).Some?
    requires forall j | 0 <= j < i :: EnvGet(host, keys[j]).None?
    ensures FirstEnvHit(host, keys) == EnvGet(host, keys[i])
  {
    if i > 0 {
      assert EnvGet(host, keys[0]).None?;
      FirstEnvHitIsFirst(host, keys[1..], i - 1);
    }
  }

  /** There is no hit exactly when no key is defined; a hit is never empty. */
  lemma {:induction false} FirstEnvHitNone(host: HostEnv, keys: seq<string>)
    ensures FirstEnvHit(host, keys).None? <==> forall j | 0 <= j < |keys| :: EnvGet(host, keys[j]).None?
    ensures FirstEnvHit(host, keys).Some? ==> FirstEnvHit(host, keys).value != ""
  {
    if keys != [] {
      FirstEnvHitNone(host, keys[1..]);
      if EnvGet(host, keys[0]).None? {
        forall j | 0 <= j < |keys| && (forall j' | 0 <= j' < |keys[1..]| :: EnvGet(host, keys[1..][j']).None?)
          ensures EnvGet(host, keys[j]).None?
        {
          if j > 0 {
            assert keys[j] == keys[1..][j - 1];
          }
        }
        forall j | 0 <= j < |keys[1..]| && (forall j' | 0 <= j' < |keys| :: EnvGet(host, keys[j']).None?)
          ensures EnvGet(host, keys[1..][j]).None?
        {
          assert keys[1..][j] == keys[j + 1];
        }
      }
    }
  }

  /** The `options` argument of `resolveBaseUrl`. */
  datatype ResolveOptions = ResolveOptions(name: Option<string>, preferred: Option<string>)

  /** `options.name ?? "default"`. */
  function TargetName(options: ResolveOptions): string {
    options.name.GetOr(DEFAULT_NAME)
  }

  /**
    The answer `resolveBaseUrl` gives for a store, a global table and an
    environment: preferred, then override, then global entry, then the
    environment keys, then `""`.
   */
  function Resolution(overrides: map<string, string>, globals: Option<map<string, string>>,
                      host: HostEnv, options: ResolveOptions): string
  {
    var name := TargetName(options);
    if Present(options.preferred) then NormalizeBase(options.preferred.value)
    else if Present(Lookup(overrides, name)) then overrides[name]
    else if ReadFromGlobals(globals, name).Some? then NormalizeBase(globals.value[name])
    else match FirstEnvHit(host, EnvKeyChain(name))
      case Some(v) => NormalizeBase(v)
      case None => ""
  }

  /** With a normalized store every answer is a normalized base URL. */
  lemma ResolutionNormalized(overrides: map<string, string>, globals: Option<map<string, string>>,
                             host: HostEnv, options: ResolveOptions)
    requires AllNormalized(overrides)
    ensures IsNormalized(Resolution(overrides, globals, host, options))
  {
    var name := TargetName(options);
    if !Present(options.preferred) && Present(Lookup(overrides, name)) {
      assert IsNormalized(overrides[name]);
    }
  }

  /** A non-empty preferred value wins over every other source. */
  lemma ResolutionPreferredWins(overrides: map<string, string>, globals: Option<map<string, string>>,
                                host: HostEnv, options: ResolveOptions)
    requires Present(options.preferred)
    ensures Resolution(overrides, globals, host, options) == NormalizeBase(options.preferred.value)
    ensures forall o: map<string, string>, g: Option<map<string, string>>, h: HostEnv ::
      Resolution(o, g, h, options) == Resolution(overrides, globals, host, options)
  {
  }

  /**
    Without a preferred value, an override or a global entry, the environment is
    read in this order: the service's own key (not for `"default"`), then
    `KAZVIZIAN_BASE_URL`, then `BASE_URL`; and nothing found gives `""`.
   */
  lemma ResolutionEnvOrder(overrides: map<string, string>, globals: Option<map<string, string>>,
                           host: HostEnv, options: ResolveOptions)
    requires !Present(options.preferred)
    requires !Present(Lookup(overrides, TargetName(options)))
    requires ReadFromGlobals(globals, TargetName(options)).None?
    ensures var name, r := TargetName(options), Resolution(overrides, globals, host, options);
      var own := if name != DEFAULT_NAME then EnvGet(host, ToEnvKey(name)) else None;
      var kaz, gen := EnvGet(host, KAZVIZIAN_KEY), EnvGet(host, GENERIC_KEY);
      && (own.Some? ==> r == NormalizeBase(own.value))
      && (own.None? && kaz.Some? ==> r == NormalizeBase(kaz.value))
      && (own.None? && kaz.None? && gen.Some? ==> r == NormalizeBase(gen.value))
      && (own.None? && kaz.None? && gen.None? ==> r == "")
  {
    var name := TargetName(options);
    var keys := EnvKeyChain(name);
    var tail := [KAZVIZIAN_KEY, GENERIC_KEY];
    var kaz, gen := EnvGet(host, KAZVIZIAN_KEY), EnvGet(host, GENERIC_KEY);
    assert FirstEnvHit(host, [GENERIC_KEY]) == gen by {
      assert [GENERIC_KEY][1..] == [];
    }
    assert FirstEnvHit(host, tail) == if kaz.Some? then kaz else gen by {
      assert tail[1..] == [GENERIC_KEY];
    }
    if name != DEFAULT_NAME {
      var own := EnvGet(host, ToEnvKey(name));
      assert keys[1..] == tail;
      assert FirstEnvHit(host, keys) == if own.Some? then own else FirstEnvHit(host, tail);
    } else {
      assert keys == tail;
    }
  }

  /** The module-level `overrides` dictionary of `src/core.ts`, with the operations on it. */
  class OverrideStore {
    var overrides: map<string, string>

    /** Every override is stored normalized. */
    ghost predicate Valid()
      reads this
    {
      AllNormalized(overrides)
    }

    /** `let overrides: BaseUrlMap = {}`. */
    constructor()
      ensures overrides == map[] && Valid()
    {
      overrides := map[];
    }

    /** `setOverride`: delete on an absent or empty value, else store it normalized. */
    method SetOverride(key: string, value: Option<string>)
      modifies this
      ensures overrides == Assign(old(overrides), key, value)
      ensures old(Valid()) ==> Valid()
    {
      if !Present(value) {
        overrides := overrides - {key};
      } else {
        overrides := overrides[key := NormalizeBase(value.value)];
      }
    }

    /** `getOverride`: the stored value, or `undefined`. */
    function GetOverride(key: string): (r: Option<string>)
      reads this
      ensures r.Some? <==> key in overrides
      ensures r.Some? ==> r.value == overrides[key]
      ensures Valid() && r.Some? ==> IsNormalized(r.value)
    {
      Lookup(overrides, key)
    }

    /** `resolveBaseUrl`, with the global table and the environment passed in. */
    method ResolveBaseUrl(options: ResolveOptions, globals: Option<map<string, string>>, host: HostEnv)
      returns (r: string)
      ensures r == Resolution(overrides, globals, host, options)
      ensures Valid() ==> IsNormalized(r)
    {
      var name := TargetName(options);
      var preferred := options.preferred;
      if Present(preferred) {
        return NormalizeBase(preferred.value);
      }
      var o := GetOverride(name);
      if Present(o) {
        return o.value;
      }
      var fromGlobal := ReadFromGlobals(globals, name);
      if Present(fromGlobal) {
        return NormalizeBase(fromGlobal.value);
      }
      var keys: seq<string> := [];
      if name != DEFAULT_NAME {
        keys := keys + [ToEnvKey(name)];
      }
      keys := keys + [KAZVIZIAN_KEY, GENERIC_KEY];
      assert keys == EnvKeyChain(name);
      var i := 0;
      while i < |keys|
        invariant 0 <= i <= |keys|
        invariant FirstEnvHit(host, keys) == FirstEnvHit(host, keys[i..])
      {
        var v := EnvGet(host, keys[i]);
        if Present(v) {
          return NormalizeBase(v.value);
        }
        assert keys[i..][1..] == keys[i + 1..];
        i := i + 1;
      }
      assert keys[i..] == [];
      return "";
    }
  }
}
