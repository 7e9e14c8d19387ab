# docklet base-URL resolver, modelled in Dafny

docklet resolves the base URL of a named service ("default" when no name is
given). It walks a fixed precedence chain:

1. a caller-supplied preferred value;
2. an override held in a process-wide in-memory store;
3. a global table the host application may publish;
4. environment variables: for a name other than `"default"`, the service's
   own `<NAME>_BASE_URL`, where `<NAME>` is the sanitized name (trimmed,
   every character other than an ASCII letter or digit turned into `_`, runs
   of `_` collapsed, `_` stripped at both ends, upper-cased); then
   `KAZVIZIAN_BASE_URL`, then `BASE_URL`;
5. failing all of these, `""`.

Every answer is put in normal form. Trailing `/` are removed, except that a
bare `scheme://` root is kept as it is.

The library also offers:

- `buildUrl`, which joins a base with path segments;
- an instance manager with its own private map of base URLs;
- an adapter that copies the first usable value of a bundler's
  `import.meta.env` object into the override store.

## Layout

| file | module | models |
|---|---|---|
| `wrappers.dfy` | `Wrappers` | `Option`, standing for JavaScript's `T \| undefined` |
| `urls.dfy` | `Urls` | `normalizeBase` and `buildUrl`; the `scheme://` regex is written as `IsSchemeRoot` |
| `envkeys.dfy` | `EnvKeys` | `sanitizeServiceName` and `toEnvKey`: trim, replace, collapse, strip, upper-case |
| `core.dfy` | `Core` | `envGet`, `readFromGlobals`, the `overrides` store (class `OverrideStore`) and `resolveBaseUrl` |
| `manager.dfy` | `Manager` | `createBaseUrlManager` (class `BaseUrlManager`, with the closure's `local` map as a field) |
| `adapters.dfy` | `Adapters` | `DEFAULT_KEYS` and `setBaseUrlFromImportMetaEnv` |
| `api.dfy` | `Api` | the entry points of `src/index.ts` |
| `scenarios.dfy` | `Scenarios` | the behaviour the test suite asserts, each case starting from a fresh store and going through the public methods |

## Modelling decisions

- **Module-level state.** The module-level `overrides` dictionary is a `map`
  field of `OverrideStore`, and every operation that reads or writes it takes
  the store object.
- **Host inputs as parameters.** The global table `__KAZVIZIAN_BASE_URLS__` is a
  parameter of type `Option<map<string, string>>`. The three runtimes `envGet`
  probes are a `HostEnv` value: the variables of Node, Bun and Deno, each a
  map. A runtime that is missing, or whose access throws, is an empty map.
- **Truthiness.** `Present(v)` (defined and non-empty) is JavaScript's
  truthiness of a `string | undefined`. The code tests this, not mere
  presence, in several places:
  - an override or private entry stored as `""` is skipped (`if (o)`);
  - `setOverride(k, "")` deletes `k`.
- **Empty stored values.** `setOverride(k, "///")` stores `""`, because the
  value is truthy but its normal form is empty. Resolution then falls
  through to the next source (`Scenarios.SlashOnlyOverrideFallsThrough`). The
  manager's seeding behaves the same way.
- **Adapter and all-slash values.** A first match is not always written into
  the override store. The code calls `setOverride(name, normalizeBase(val))`, which normalizes
  again. When `val` is all slashes, its normal form is `""`, so the code
  DELETES the entry rather than writing one. The model follows the code
  (`Adapters.AdapterWrite`, `Adapters.AllSlashesDeletes`). Deleting the entry
  and storing `""` resolve the same way.
- **Adapter env object.** The env object is an `Option<map<string, EnvValue>>`:
  - `None` is `null`, `undefined` or a non-object;
  - `EnvValue.NonString` is any property that is not a string;
  - a missing property is skipped like a non-string one.
- **Methods and specifications.** Each imperative routine is proved against a
  specification function:
  - `OverrideStore.ResolveBaseUrl` (keys pushed into an array, then a loop with
    early return) against `Resolution`;
  - the adapter's scan loop against `FirstStringValue`;
  - the manager's getters against `ManagerResolution`.

  Separate lemmas state the precedence, ordering and normal-form properties
  of those functions.

## Model

| member | source | states |
|---|---|---|
| Urls.StripTrailingSlashes | src/core.ts:13 | `url.replace(/\/+$/g, "")`: the result is a prefix of the input with no trailing `/`, and everything removed was `/` |
| Urls.StripLeadingSlashes | src/core.ts:105 | the `^\/+` half of the part clean-up: the result is a suffix with no leading `/`, and everything removed was `/` |
| Urls.StripTrailingNoSlash | src/core.ts:13 | stripping trailing slashes from a string that does not end in `/` changes nothing |
| Urls.NoSlashNotSchemeRoot | src/core.ts:11 | a string that does not end in `/` is never matched by the `scheme://` pattern |
| Urls.IsSchemeRoot | src/core.ts:11 | the regex `^[a-zA-Z][a-zA-Z0-9+.-]*:\/\/$` (also at line 111): an ASCII letter, then letters, digits, `+`, `.` or `-`, then exactly `://` at the end |
| Urls.IsNormalized | src/core.ts:11-13 | the strings `normalizeBase` can return: a `scheme://` root, or a string that does not end in `/` |
| Urls.NormalizeBase | src/core.ts:6-14 | `""` maps to `""`; an exact `scheme://` root is returned unchanged; any other input loses exactly its trailing `/` run, so the result never ends in `/`; every result is in normal form |
| Urls.NormalizeBaseFixedPoints | src/core.ts:11-13 | `normalizeBase(s) == s` holds exactly for the strings in normal form (a scheme root or no trailing `/`), in both directions |
| Urls.NormalizeBaseIdempotent | src/core.ts:6-14 | normalizing twice is normalizing once |
| Urls.NoTrailingSlashIsFixed | src/core.ts:11-13 | a string with no trailing `/` is its own normal form and is not a scheme root |
| Urls.StripTrailingUnique | src/core.ts:13 | a prefix with no trailing `/` that differs from the input only by slashes is the stripped result |
| Urls.NormalizeBaseDropsSlashes | src/core.ts:13 | a non-scheme-root input that is `s` followed only by `/` normalizes to `s`, when `s` has no trailing `/` |
| Urls.NormalizeBaseDropsOneSlash | src/core.ts:13 | `normalizeBase(s + "/") == s` for `s` without a trailing `/` |
| Urls.NormalizeBaseExamples | src/core.ts:7-13 | `normalizeBase("") == ""`, `"https://"` is kept, `"https://a.com///"` becomes `"https://a.com"`, and `"///"` becomes `""` |
| Urls.StripSurroundingSlashes | src/core.ts:105 | `p.replace(/^\/+\|\/+$/g, "")` leaves no `/` at either end |
| Urls.StripSurroundingSlashesSlice | src/core.ts:105 | the stripped part is a slice of `p` preceded only by `/` and followed only by `/` |
| Urls.StripSurroundingSlashesEmpty | src/core.ts:105 | the stripped part is `""` exactly when `p` consists of slashes only |
| Urls.CleanPart | src/core.ts:103-106 | one part survives the filter/strip/filter pipeline as at most one segment, which is non-empty with no `/` at either end |
| Urls.CleanPartExact | src/core.ts:103-106 | a part is dropped exactly when it is empty or all slashes; otherwise it is kept as itself with its leading and trailing `/` runs removed |
| Urls.CleanParts | src/core.ts:102-106 | the cleaned list is no longer than the input and every kept segment is non-empty with no `/` at either end |
| Urls.Join | src/core.ts:108-114 | `Array.prototype.join`: `""` for no parts, the part itself for one, else the parts with the separator between each two |
| Urls.JoinBase | src/core.ts:108-114 | joining a normalized base with cleaned segments extends the base, stays in normal form, and with at least one segment is non-empty with no trailing `/` |
| Urls.BuildUrl | src/core.ts:100-115 | the result begins with the normalized base and is itself in normal form |
| Urls.JoinOfCleanParts | src/core.ts:108 | joining segments that are non-empty and do not end in `/` gives a result that does not end in `/`, starts with the first segment, and is non-empty when there is one |
| Urls.JoinAppend | src/core.ts:114 | `join(a ++ b)` is `join(a) + "/" + join(b)` for non-empty `a` and `b` |
| Urls.CleanPartsCons | src/core.ts:102-106 | cleaning distributes over taking the first part off |
| Urls.CleanPartsAppend | src/core.ts:102-106 | cleaning distributes over concatenation of part lists |
| Urls.CleanPartsOfClean | src/core.ts:102-106 | cleaning already-clean segments changes nothing |
| Urls.CleanPartsIdempotent | src/core.ts:102-106 | cleaning is idempotent |
| Urls.BuildUrlNoParts | src/core.ts:108-114 | with no parts, `buildUrl(base)` is `normalizeBase(base)` |
| Urls.JoinBaseAfterPlainBase | src/core.ts:108-114 | joining onto a non-empty base without a trailing `/` puts exactly one `/` between the base and the joined segments, and adds nothing when there are none |
| Urls.JoinBaseAppendNonEmpty | src/core.ts:108-114 | joining `p` and then `q` onto a base equals joining `p ++ q` when `p` is non-empty |
| Urls.JoinBaseAppend | src/core.ts:108-114 | joining `p` and then `q` onto a normalized base equals joining `p ++ q` |
| Urls.BuildUrlCompose | src/core.ts:100-115 | `buildUrl(buildUrl(base, ...ps), ...qs) == buildUrl(base, ...ps, ...qs)` |
| Urls.BuildUrlExampleAbsolute | test/core.test.ts:56 | `buildUrl("https://a.com/", "/x/", "y") == "https://a.com/x/y"` |
| Urls.CleanPartsExampleAbsolute | test/core.test.ts:56 | the parts `"/x/", "y"` clean to `"x", "y"` |
| Urls.JoinBaseExampleAbsolute | test/core.test.ts:56 | `"https://a.com"` joined with `"x", "y"` is `"https://a.com/x/y"` |
| Urls.BuildUrlExampleRelative | test/core.test.ts:57 | `buildUrl("", "a", "/b/") == "a/b"` |
| Urls.CleanPartsExampleRelative | test/core.test.ts:57 | the parts `"a", "/b/"` clean to `"a", "b"` |
| Urls.JoinBaseExampleRelative | test/core.test.ts:57 | an empty base joined with `"a", "b"` is `"a/b"` |
| Urls.BuildUrlExampleSchemeRoot | test/core.test.ts:58 | `buildUrl("https://", "a") == "https://a"`: no separator after a scheme root |
| EnvKeys.CollapseShape | src/core.ts:41 | after `.replace(/_+/g, "_")` no two `_` are adjacent, the character set is kept within letters, digits and `_`, and the first character is kept |
| EnvKeys.StripLeadingUnderscoresShape | src/core.ts:42 | stripping leading `_` leaves a suffix that does not start with `_` |
| EnvKeys.StripTrailingUnderscoresShape | src/core.ts:42 | stripping trailing `_` leaves a prefix that does not end with `_` |
| EnvKeys.ToEnvKey | src/core.ts:45-46 | every key ends in `_BASE_URL`, and what precedes the suffix consists of upper-case ASCII letters, digits and single underscores, with no `_` at either end |
| EnvKeys.SuffixKeepsWordShape | src/core.ts:42 | dropping a prefix keeps the letters/digits/`_` shape and the absence of double `_` |
| EnvKeys.PrefixKeepsWordShape | src/core.ts:42 | dropping a suffix keeps the letters/digits/`_` shape and the absence of double `_` |
| EnvKeys.UpperOfWordIsToken | src/core.ts:43 | upper-casing such a string with inner single `_` yields an environment-key token |
| EnvKeys.SanitizeIsEnvToken | src/core.ts:37-43 | every sanitized name is an environment-key token |
| EnvKeys.CollapseOfSingle | src/core.ts:41 | collapsing a string with no double `_` changes nothing |
| EnvKeys.SanitizeOfToken | src/core.ts:37-43 | sanitizing an environment-key token changes nothing |
| EnvKeys.SanitizeIdempotent | src/core.ts:37-43 | `sanitizeServiceName` is idempotent |
| EnvKeys.ToEnvKeyOfToken | src/core.ts:45-46 | a name that already is a token `T` has key `T_BASE_URL` |
| EnvKeys.CollapseAppend | src/core.ts:41 | a prefix without double `_` that does not end in `_` passes through collapsing unchanged |
| EnvKeys.UpperExample | src/core.ts:43 | upper-casing agrees with any string that matches it character by character |
| EnvKeys.ToEnvKeyExampleContent | test/core.test.ts:50-53 | `toEnvKey("content") == "CONTENT_BASE_URL"` |
| EnvKeys.SanitizeExampleContent | src/core.ts:37-43 | `sanitizeServiceName("content") == "CONTENT"` |
| EnvKeys.TrimExampleContent | src/core.ts:39 | `"content"` has nothing to trim |
| EnvKeys.ReplaceExampleContent | src/core.ts:40 | `"content"` has no character to replace |
| EnvKeys.CollapseExampleContent | src/core.ts:41 | `"content"` has no underscores to collapse |
| EnvKeys.UpperExampleContent | src/core.ts:43 | `"content"` upper-cases to `"CONTENT"` |
| EnvKeys.ToEnvKeyExampleSpaced | src/core.ts:37-46 | `toEnvKey("my service!!") == "MY_SERVICE_BASE_URL"` |
| EnvKeys.SanitizeExampleSpaced | src/core.ts:37-43 | `sanitizeServiceName("my service!!") == "MY_SERVICE"` |
| EnvKeys.TrimExampleSpaced | src/core.ts:39 | `"my service!!"` has nothing to trim |
| EnvKeys.ReplaceExampleSpaced | src/core.ts:40 | `"my service!!"` becomes `"my_service__"` |
| EnvKeys.CollapseExampleSpaced | src/core.ts:41 | `"my_service__"` collapses to `"my_service_"` |
| EnvKeys.StripExampleSpaced | src/core.ts:42 | `"my_service_"` strips to `"my_service"` |
| EnvKeys.UpperExampleSpaced | src/core.ts:43 | `"my_service"` upper-cases to `"MY_SERVICE"` |
| EnvKeys.IsJsWhitespace | src/core.ts:39 | the code points `trim` removes: the ECMAScript WhiteSpace and LineTerminator characters |
| EnvKeys.Trim | src/core.ts:39 | `name.trim()`: leading, then trailing whitespace removed |
| EnvKeys.ReplaceNonAlnum | src/core.ts:40 | `.replace(/[^a-zA-Z0-9]/g, "_")`: each ASCII letter or digit kept in place, every other character replaced by `_` |
| EnvKeys.CollapseUnderscores | src/core.ts:41 | `.replace(/_+/g, "_")`: of two adjacent `_` the first is dropped, so every run of `_` becomes one |
| EnvKeys.StripLeadingUnderscores | src/core.ts:42 | the `^_+` half: leading `_` dropped one at a time |
| EnvKeys.StripTrailingUnderscores | src/core.ts:42 | the `_+$` half: trailing `_` dropped one at a time |
| EnvKeys.ToUpperAscii | src/core.ts:43 | `.toUpperCase()`: each ASCII lower-case letter mapped to its upper-case letter, every other character kept |
| EnvKeys.SanitizeServiceName | src/core.ts:37-43 | `sanitizeServiceName`: trim, replace, collapse, strip both ends, upper-case, in that order |
| Core.Assign | src/core.ts:56-62 | an absent or empty value removes the key; any other value is stored as its normal form; every other key is unchanged; a store of normalized values stays normalized |
| Core.Present | src/core.ts:79 | JavaScript truthiness of a `string \| undefined`: defined and non-empty |
| Core.Lookup | src/core.ts:64 | `m[k]` on a plain object: the stored value, or undefined when the key is missing |
| Core.RuntimeGet | src/core.ts:26-33 | one runtime's answer to `envGet`: its value when it is a non-empty string, else undefined |
| Core.EnvGet | src/core.ts:24-35 | the result, when defined, is non-empty; it is undefined exactly when no runtime has a non-empty value; it is Node's value when Node has one, else Bun's when Bun has one, else Deno's |
| Core.ReadFromGlobals | src/core.ts:48-54 | defined exactly when the table exists and has a non-empty entry for the key, and then it is that entry |
| Core.EnvKeyChain | src/core.ts:86-88 | the keys tried: `toEnvKey(name)` only for a name other than `"default"`, then `KAZVIZIAN_BASE_URL`, then `BASE_URL` |
| Core.FirstEnvHit | src/core.ts:89-92 | the loop over the keys: the `envGet` value of the first key that has one, else undefined |
| Core.TargetName | src/core.ts:70 | `options.name ?? "default"` |
| Core.Resolution | src/core.ts:66-98 | `resolveBaseUrl`'s precedence: a non-empty preferred value normalized, else a non-empty override as stored, else a non-empty global entry normalized, else the first environment hit normalized, else `""` |
| Core.FirstEnvHitIsFirst | src/core.ts:89-92 | the first key with an environment value decides the hit, whatever follows it |
| Core.FirstEnvHitNone | src/core.ts:89-97 | there is no hit exactly when no key has an environment value, in both directions; a hit is never empty |
| Core.ResolutionNormalized | src/core.ts:73-97 | with a normalized store every answer of `resolveBaseUrl` is in normal form |
| Core.ResolutionPreferredWins | src/core.ts:73-75 | a non-empty preferred value gives its normal form, whatever the store, global table and environment hold |
| Core.ResolutionEnvOrder | src/core.ts:85-97 | with no preferred value, no non-empty override and no global entry: the service's own key (only for names other than `"default"`) wins, then `KAZVIZIAN_BASE_URL`, then `BASE_URL`, and nothing found gives `""` |
| Core.OverrideStore.SetOverride | src/core.ts:56-62 | the new store is the old one updated by `Assign`, so every other key is unchanged; the normalized-store invariant is kept |
| Core.OverrideStore.constructor | src/core.ts:4 | `let overrides = {}`: the store starts empty, and so valid |
| Core.OverrideStore.GetOverride | src/core.ts:64 | defined exactly when the key is stored, then the stored value, which is normalized in a valid store |
| Core.OverrideStore.ResolveBaseUrl | src/core.ts:66-98 | the keys-array-and-loop code returns exactly `Resolution`: preferred, then a non-empty override, then a non-empty global entry, then the first environment hit, else `""`; normalized in a valid store |
| Manager.SeedLocal | src/core.ts:118-121 | the private map has exactly the keys of `initial`, each holding the normal form of its initial value; no `initial` gives an empty map |
| Manager.ManagerResolution | src/core.ts:123-138 | the getters `get`/`getFor`: a non-empty preferred value normalized, else a non-empty private entry, else `resolveBaseUrl({ name })` |
| Manager.ManagerIsolation | src/core.ts:134-138 | with a non-empty private entry the answer does not depend on the process-wide store, the global table or the environment |
| Manager.ManagerFallback | src/core.ts:134-138 | with no preferred value and no non-empty private entry, the manager answers exactly `resolveBaseUrl({ name })` |
| Manager.ManagerNormalized | src/core.ts:117-151 | with a normalized private map and store every manager answer is in normal form |
| Manager.BaseUrlManager.constructor | src/core.ts:117-121 | the private map is the seeded one and the manager uses the given process-wide store |
| Manager.BaseUrlManager.GetBaseUrlFor | src/core.ts:134-138 | returns `ManagerResolution`: preferred, then a non-empty private entry, then the process-wide resolver; normalized when both maps are |
| Manager.BaseUrlManager.GetBaseUrl | src/core.ts:123-127 | the same lookup for `"default"` |
| Manager.BaseUrlManager.SetBaseUrlFor | src/core.ts:140-143 | the private map is updated by `Assign`; the process-wide store is untouched |
| Manager.BaseUrlManager.SetBaseUrl | src/core.ts:129-132 | the private `"default"` entry is updated by `Assign`; the process-wide store is untouched |
| Adapters.AdapterTarget | src/adapters.ts:17 | the target name is `options.name` when given, else `"default"` |
| Adapters.KeysToScan | src/adapters.ts:5-10 | the keys are `options.keys` when given and non-empty, else `KAZVIZIAN_BASE_URL`, `VITE_BASE_URL`, `NEXT_PUBLIC_BASE_URL`, `BASE_URL` in that order |
| Adapters.IsUsable | src/adapters.ts:21-22 | `typeof val === "string" && val`: the key holds a non-empty string |
| Adapters.FirstStringValue | src/adapters.ts:20-26 | the scan: the value under the first key in order that holds a non-empty string, else nothing |
| Adapters.FirstStringValueIsFirst | src/adapters.ts:20-25 | the first key holding a non-empty string decides the value; earlier keys are skipped |
| Adapters.FirstStringValueNone | src/adapters.ts:20-27 | nothing is found exactly when no key holds a non-empty string, in both directions |
| Adapters.AdapterWrite | src/adapters.ts:23 | writing `normalizeBase(v)` through `setOverride` leaves the target holding `normalizeBase(v)` (normalizing twice is harmless), or deletes it when that is `""`; other entries are kept |
| Adapters.AllSlashesDeletes | src/adapters.ts:23 | a value of `"///"` normalizes to `""`, so the adapter deletes the target entry |
| Adapters.SetBaseUrlFromImportMetaEnv | src/adapters.ts:12-27 | no env object: store unchanged; no usable key: store unchanged; otherwise exactly the target entry is updated with the first usable value's normal form; store validity is kept |
| Api.SetBaseUrl | src/index.ts:14 | exactly `setOverride("default", url)` |
| Api.SetBaseUrlFor | src/index.ts:19-20 | exactly `setOverride(name, url)` |
| Api.GetBaseUrl | src/index.ts:16-17 | exactly `resolveBaseUrl({ preferred, name: "default" })`; normalized in a valid store |
| Api.GetBaseUrlFor | src/index.ts:22-23 | exactly `resolveBaseUrl({ name, preferred })`; normalized in a valid store |
| Api.DebugGetOverride | src/index.ts:26-27 | reads the override for the name, `"default"` when none is given, changing nothing |
| Api.DefaultIsNamedDefault | src/core.ts:70 | an absent name resolves as `"default"` |
| Api.SetThenGet | src/core.ts:56-79 | after storing a value whose normal form is non-empty, resolving that name without a preferred value gives that normal form |
| Api.ClearedFallsThrough | src/core.ts:56-79 | after clearing a name, or storing a value whose normal form is `""`, resolution answers as if the name had never been stored |
| Scenarios.DefaultChain | src/core.ts:86-88 | for `"default"` only `KAZVIZIAN_BASE_URL` and `BASE_URL` are tried |
| Scenarios.NothingSet | test/core.test.ts:26-28 | with nothing configured `getBaseUrl()` is `""` |
| Scenarios.PreferredTakesPrecedence | test/core.test.ts:30-33 | with override `"https://a.com"`, `getBaseUrl("https://b.com/")` is `"https://b.com"` |
| Scenarios.OverrideIsUsed | test/core.test.ts:35-38 | after `setBaseUrl("https://a.com/")`, `getBaseUrl()` is `"https://a.com"` |
| Scenarios.ReadsFromGlobalMap | test/core.test.ts:40-43 | a global table `{ default: "https://g.com/" }` gives `"https://g.com"` |
| Scenarios.ReadsFromEnv | test/core.test.ts:45-48 | `KAZVIZIAN_BASE_URL="https://env.com/"` gives `"https://env.com"` |
| Scenarios.NamedServiceEnvKey | test/core.test.ts:50-53 | `CONTENT_BASE_URL` answers `getBaseUrlFor("content")` with `"https://content.example.com"` |
| Scenarios.ManagerIsolation | test/core.test.ts:61-67 | a seeded manager answers `"https://c.com"` before and after a process-wide `setBaseUrlFor("content", ...)` |
| Scenarios.SlashOnlyOverrideFallsThrough | src/core.ts:57-60 | `setBaseUrl("///")` stores `""`, and resolution falls through to the environment |
| Scenarios.AdapterTakesFirstString | src/adapters.ts:20-25 | a non-string `KAZVIZIAN_BASE_URL` is skipped and `VITE_BASE_URL`'s normal form becomes the `"default"` override |
| Scenarios.AdapterWithoutEnv | src/adapters.ts:16 | without an env object the existing override is kept |

## Left out

- Runtime probing in `envGet` (src/core.ts:16-35) is not modelled: the
  reflective reads of `process.env`, `Bun.env` and `Deno.env.get`, and the
  `safeAccess` try/catch around them. This is host I/O. The three runtimes'
  variables are a `HostEnv` parameter instead, and a runtime that is missing
  or throws is an empty map.
- The reflective read of `globalThis.__KAZVIZIAN_BASE_URLS__`
  (src/core.ts:49) and the `declare global` in src/types.ts are replaced by
  an explicit optional map parameter. Table entries that are not strings are
  not modelled. src/types.ts holds only type aliases.
- Dynamic typing details are not modelled, because every input is already a
  string or `Option<string>`:
  - `typeof preferred === "string"` (src/core.ts:74);
  - `p != null` and `String(p)` in `buildUrl` (src/core.ts:103-104).
- Keys inherited from `Object.prototype` (such as `"toString"`) are not
  modelled; every such key is absent here. In the source, `overrides` and
  the manager's `local` are plain `{}` objects, so such a key reads as
  present in them: `getOverride("toString")` (src/core.ts:64) returns the
  inherited function, which is truthy, so `resolveBaseUrl` returns it
  (src/core.ts:79), and the manager does the same (src/core.ts:125, 136).
  Only the env object (the `typeof` test of src/adapters.ts:22) and the
  global table (src/core.ts:52) skip such keys, as the model does.
- Iteration order of `Object.entries` during seeding does not matter,
  because the result is a map. `Manager.SeedLocal` iterates over the key set
  instead.
- Characters are Unicode scalar values here, whereas JavaScript strings are
  UTF-16. This does not change what `sanitizeServiceName` produces:
  - a non-BMP character becomes two `_` in JavaScript and one `_` here, and
    the collapse step makes these the same;
  - all `trim` whitespace is in the BMP.
- EnvKeys.ToUpperAscii: upper-cases ASCII letters only, unlike the full
  Unicode `toUpperCase`. At that point of the pipeline only ASCII letters,
  digits and `_` remain, so the results agree.
- The test harness itself (`bun:test`, mutating `process.env`) is not
  modelled. Its cases are stated in `Scenarios` and in the `Example` lemmas.
