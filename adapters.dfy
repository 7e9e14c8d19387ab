/**
  `setBaseUrlFromImportMetaEnv`: scan a bundler's `import.meta.env`-like object
  for the first non-empty string under an ordered list of keys and write it, at
  most once, into the process-wide override store.
 */
module Adapters {
  import opened Wrappers
  import opened Urls
  import opened Core

  /** A property of the env object: a string, or any other JavaScript value. */
  datatype EnvValue = Str(s: string) | NonString

  /** A plain object of properties; a missing property reads as `undefined`. */
  type EnvObject = map<string, EnvValue>

  /** The `options` argument: an optional target name and an optional key list. */
  datatype AdapterOptions = AdapterOptions(name: Option<string>, keys: Option<seq<string>>)

  /** The keys scanned when the caller gives none. */
  const DEFAULT_KEYS: seq<string> := ["KAZVIZIAN_BASE_URL", "VITE_BASE_URL", "NEXT_PUBLIC_BASE_URL", "BASE_URL"]

  /** `options?.name ?? "default"`. */
  function AdapterTarget(options: Option<AdapterOptions>): (r: string)
    ensures options.None? || options.value.name.None? ==> r == DEFAULT_NAME
    ensures options.Some? && options.value.name.Some? ==> r == options.value.name.value
  {
    if options.Some? then options.value.name.GetOr(DEFAULT_NAME) else DEFAULT_NAME
  }

  /** `options?.keys && options.keys.length ? options.keys : DEFAULT_KEYS`. */
  function KeysToScan(options: Option<AdapterOptions>): (r: seq<string>)
    ensures r != []
    ensures options.Some? && options.value.keys.Some? && options.value.keys.value != [] ==> r == options.value.keys.value
    ensures options.None? || options.value.keys.None? || options.value.keys.value == [] ==> r == DEFAULT_KEYS
  {
    if options.Some? && options.value.keys.Some? && options.value.keys.value != [] then options.value.keys.value
    else DEFAULT_KEYS
  }

  /** `typeof val === "string" && val`: the property holds a non-empty string. */
  predicate IsUsable(env: EnvObject, k: string) {
    k in env && env[k].Str? && env[k].s != ""
  }

  /** The value under the first key in `keys` that holds a non-empty string. */
  function FirstStringValue(env: EnvObject, keys: seq<string>): Option<string> {
    if keys == [] then None
    else if IsUsable(env, keys[0]) then Some(env[keys[0]].s)
    else FirstStringValue(env, keys[1..])
  }

  /** The first usable key decides the value; keys before it are skipped. */
  lemma {:induction false} FirstStringValueIsFirst(env: EnvObject, keys: seq<string>, i: nat)
    requires i < |keys| && IsUsable(env, keys[i])
    requires forall j | 0 <= j < i :: !IsUsable(env, keys[j])
    ensures FirstStringValue(env, keys) == Some(env[keys[i]].s)
  {
    if i > 0 {
      assert !IsUsable(env, keys[0]);
      FirstStringValueIsFirst(env, keys[1..], i - 1);
    }
  }

  /** Nothing is found exactly when no key is usable; what is found is non-empty. */
  lemma {:induction false} FirstStringValueNone(env: EnvObject, keys: seq<string>)
    ensures FirstStringValue(env, keys).None? <==> forall j | 0 <= j < |keys| :: !IsUsable(env, keys[j])
    ensures FirstStringValue(env, keys).Some? ==> FirstStringValue(env, keys).value != ""
  {
    if keys != [] {
      FirstStringValueNone(env, keys[1..]);
      if !IsUsable(env, keys[0]) {
        forall j | 0 <= j < |keys| && (forall j' | 0 <= j' < |keys[1..]| :: !IsUsable(env, keys[1..][j']))
          ensures !IsUsable(env, keys[j])
        {
          if j > 0 {
            assert keys[j] == keys[1..][j - 1];
          }
        }
        forall j | 0 <= j < |keys[1..]| && (forall j' | 0 <= j' < |keys| :: !IsUsable(env, keys[j']))
          ensures !IsUsable(env, keys[1..][j])
        {
          assert keys[1..][j] == keys[j + 1];
        }
      }
    }
  }

  /**
    The effect on the store of finding `v`: the adapter passes `normalizeBase(v)`
    to `setOverride`, which normalizes again. The entry for `name` becomes
    `normalizeBase(v)`, or is deleted when `v` is all slashes (its normal form is
    `""`), and every other entry is kept.
   */
  lemma AdapterWrite(m: map<string, string>, name: string, v: string)
    requires v != ""
    ensures var r := Assign(m, name, Some(NormalizeBase(v)));
      && (NormalizeBase(v) != "" ==> name in r && r[name] == NormalizeBase(v))
      && (NormalizeBase(v) == "" ==> name !in r)
      && (forall k | k != name :: (k in r <==> k in m) && (k in r ==> r[k] == m[k]))
  {
    NormalizeBaseIdempotent(v);
  }

  /** A value made of slashes only makes the adapter delete the target entry. */
  lemma AllSlashesDeletes(m: map<string, string>, name: string)
    ensures NormalizeBase("///") == ""
    ensures name !in Assign(m, name, Some(NormalizeBase("///")))
  {
    NormalizeBaseExamples();
  }

  /**
    `setBaseUrlFromImportMetaEnv(env, options)`: without an env object nothing
    happens; otherwise the first usable key's value is written for the target
    name, and when no key is usable the store is left as it was.
   */
  method SetBaseUrlFromImportMetaEnv(store: OverrideStore, env: Option<EnvObject>, options: Option<AdapterOptions>)
    modifies store
    ensures env.None? ==> store.overrides == old(store.overrides)
    ensures env.Some? && FirstStringValue(env.value, KeysToScan(options)).None? ==>
      store.overrides == old(store.overrides)
    ensures env.Some? && FirstStringValue(env.value, KeysToScan(options)).Some? ==>
      store.overrides == Assign(old(store.overrides), AdapterTarget(options),
                                Some(NormalizeBase(FirstStringValue(env.value, KeysToScan(options)).value)))
    ensures old(store.Valid()) ==> store.Valid()
  {
    if env.None? {
      return;
    }
    var e := env.value;
    var name := AdapterTarget(options);
    var keys := KeysToScan(options);
    var i := 0;
    while i < |keys|
      invariant 0 <= i <= |keys|
      invariant FirstStringValue(e, keys) == FirstStringValue(e, keys[i..])
      invariant store.overrides == old(store.overrides)
    {
      var k := keys[i];
      if k in e && e[k].Str? && e[k].s != "" {
        store.SetOverride(name, Some(NormalizeBase(e[k].s)));
        return;
      }
      assert keys[i..][1..] == keys[i + 1..];
      i := i + 1;
    }
    assert keys[i..] == [];
  }
}
