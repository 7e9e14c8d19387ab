/**
  The URL string rules of the resolver: `normalizeBase`, which strips trailing slashes
  but keeps a bare `scheme://` root intact, and `buildUrl`, which joins a normalized
  base with path segments whose surrounding slashes have been stripped.
  The two regular expressions of the source are written out as predicates and
  recursive functions.
 */
module Urls {

  predicate IsAsciiLetter(c: char) {
    'a' <= c <= 'z' || 'A' <= c <= 'Z'
  }

  predicate IsAsciiDigit(c: char) {
    '0' <= c <= '9'
  }

  /** A character allowed after the first letter of a URL scheme: `[a-zA-Z0-9+.-]`. */
  predicate IsSchemeChar(c: char) {
    IsAsciiLetter(c) || IsAsciiDigit(c) || c == '+' || c == '.' || c == '-'
  }

  /** The whole string is `<scheme>://`, that is, it matches `^[a-zA-Z][a-zA-Z0-9+.-]*:\/\/$`. */
  predicate IsSchemeRoot(s: string) {
    && |s| >= 4
    && IsAsciiLetter(s[0])
    && (forall i | 1 <= i < |s| - 3 :: IsSchemeChar(s[i]))
    && s[|s| - 3] == ':' && s[|s| - 2] == '/' && s[|s| - 1] == '/'
  }

  predicate StartsWithSlash(s: string) {
    |s| > 0 && s[0] == '/'
  }

  predicate EndsWithSlash(s: string) {
    |s| > 0 && s[|s| - 1] == '/'
  }

  /** True of every string `normalizeBase` can return: a scheme root or no trailing `/`. */
  predicate IsNormalized(s: string) {
    IsSchemeRoot(s) || !EndsWithSlash(s)
  }

  /** `s.replace(/\/+$/g, "")`: the longest prefix of `s` that does not end in `/`. */
  function StripTrailingSlashes(s: string): (r: string)
    ensures r <= s && !EndsWithSlash(r)
    ensures forall i | |r| <= i < |s| :: s[i] == '/'
  {
    if EndsWithSlash(s) then StripTrailingSlashes(s[..|s| - 1]) else s
  }

  /** `s.replace(/^\/+/g, "")`: the longest suffix of `s` that does not start with `/`. */
  function StripLeadingSlashes(s: string): (r: string)
    ensures |r| <= |s| && r == s[|s| - |r|..] && !StartsWithSlash(r)
    ensures forall i | 0 <= i < |s| - |r| :: s[i] == '/'
  {
    if StartsWithSlash(s) then StripLeadingSlashes(s[1..]) else s
  }

  /** A string that does not end in `/` is left alone by the trailing-slash strip. */
  lemma StripTrailingNoSlash(s: string)
    requires !EndsWithSlash(s)
    ensures StripTrailingSlashes(s) == s
  {
  }

  /** A string that does not end in `/` is never an exact `scheme://` root. */
  lemma NoSlashNotSchemeRoot(s: string)
    requires !EndsWithSlash(s)
    ensures !IsSchemeRoot(s)
  {
  }

  /**
    `normalizeBase(url)`: `""` for `""`, the input itself when it is exactly `scheme://`,
    and otherwise the input with every trailing `/` removed.
   */
  function NormalizeBase(url: string): (r: string)
    ensures url == "" ==> r == ""
    ensures IsSchemeRoot(url) ==> r == url
    ensures !IsSchemeRoot(url) ==>
      r <= url && !EndsWithSlash(r) && forall i | |r| <= i < |url| :: url[i] == '/'
    ensures IsNormalized(r)
  {
    if url == "" then ""
    else if IsSchemeRoot(url) then url
    else StripTrailingSlashes(url)
  }

  /** The strings that `normalizeBase` leaves unchanged are exactly the normalized ones. */
  lemma NormalizeBaseFixedPoints(s: string)
    ensures NormalizeBase(s) == s <==> IsNormalized(s)
  {
    if !IsSchemeRoot(s) && !EndsWithSlash(s) {
      StripTrailingNoSlash(s);
    }
  }

  /** `normalizeBase` is idempotent. */
  lemma NormalizeBaseIdempotent(s: string)
    ensures NormalizeBase(NormalizeBase(s)) == NormalizeBase(s)
  {
    NormalizeBaseFixedPoints(NormalizeBase(s));
  }

  /** `parts.join(sep)`. */
  function Join(parts: seq<string>, sep: string): string {
    if |parts| == 0 then ""
    else if |parts| == 1 then parts[0]
    else parts[0] + sep + Join(parts[1..], sep)
  }

  /** A path segment as `buildUrl` keeps it: non-empty, with no `/` at either end. */
  predicate IsCleanPart(p: string) {
    p != "" && !StartsWithSlash(p) && !EndsWithSlash(p)
  }

  /** Every character of `s` is `/` (vacuously so for `""`). */
  predicate AllSlashes(s: string) {
    forall i | 0 <= i < |s| :: s[i] == '/'
  }

  /** `r` is `p` with a leading run and a trailing run of `/` removed. */
  predicate IsSlashTrimOf(r: string, p: string) {
    exists k {:trigger p[k..]} | 0 <= k <= |p| - |r| ::
      && p[k..][..|r|] == r
      && AllSlashes(p[..k])
      && AllSlashes(p[k + |r|..])
  }

  /**
    `p.replace(/^\/+|\/+$/g, "")`: the longest slice of `p` that neither starts nor
    ends with `/`.
   */
  function StripSurroundingSlashes(p: string): (r: string)
    ensures !StartsWithSlash(r) && !EndsWithSlash(r)
  {
    var q := StripLeadingSlashes(p);
    var r := StripTrailingSlashes(q);
    assert r != "" ==> r[0] == q[0];
    r
  }

  /** The leading-slash strip removes a prefix made of slashes. */
  lemma LeadingRun(p: string)
    ensures p[|p| - |StripLeadingSlashes(p)|..] == StripLeadingSlashes(p)
    ensures AllSlashes(p[..|p| - |StripLeadingSlashes(p)|])
  {
    var head := p[..|p| - |StripLeadingSlashes(p)|];
    forall i | 0 <= i < |head| ensures head[i] == '/' {
      assert head[i] == p[i];
    }
  }

  /** The trailing-slash strip removes a suffix made of slashes. */
  lemma TrailingRun(q: string)
    ensures q[..|StripTrailingSlashes(q)|] == StripTrailingSlashes(q)
    ensures AllSlashes(q[|StripTrailingSlashes(q)|..])
  {
    var tail := q[|StripTrailingSlashes(q)|..];
    forall j | 0 <= j < |tail| ensures tail[j] == '/' {
      assert tail[j] == q[|StripTrailingSlashes(q)| + j];
    }
  }

  /** Stripping both ends removes exactly a leading and a trailing run of slashes. */
  lemma StripSurroundingSlashesSlice(p: string)
    ensures IsSlashTrimOf(StripSurroundingSlashes(p), p)
  {
    var q := StripLeadingSlashes(p);
    var r := StripTrailingSlashes(q);
    var k := |p| - |q|;
    assert r == StripSurroundingSlashes(p);
    LeadingRun(p);
    TrailingRun(q);
    assert p[k..][..|r|] == r;
    assert p[k + |r|..] == q[|r|..];
    assert 0 <= k <= |p| - |r| && p[k..][..|r|] == r && AllSlashes(p[..k]) && AllSlashes(p[k + |r|..]);
  }

  /** Stripping both ends leaves nothing exactly when the part is made of slashes only. */
  lemma StripSurroundingSlashesEmpty(p: string)
    ensures StripSurroundingSlashes(p) == "" <==> AllSlashes(p)
  {
    var q := StripLeadingSlashes(p);
    var r := StripTrailingSlashes(q);
    var k := |p| - |q|;
    LeadingRun(p);
    TrailingRun(q);
    if r == "" {
      assert q[0..] == q;
      assert q == "";
      assert p == p[..k];
    }
  }

  /**
    What the `filter`/`map`/`filter` pipeline of `buildUrl` keeps of one part: nothing
    for an empty part or one that is empty once its surrounding slashes are stripped,
    and otherwise the stripped part.
   */
  function CleanPart(p: string): (r: seq<string>)
    ensures |r| <= 1
    ensures forall i | 0 <= i < |r| :: IsCleanPart(r[i])
  {
    if p == "" then []
    else
      var q := StripSurroundingSlashes(p);
      if q == "" then [] else [q]
  }

  /**
    A part is dropped exactly when it is made of slashes only (the empty part
    included); otherwise it is kept as itself without its surrounding slashes.
   */
  lemma CleanPartExact(p: string)
    ensures CleanPart(p) == [] <==> AllSlashes(p)
    ensures CleanPart(p) != [] ==> CleanPart(p) == [StripSurroundingSlashes(p)]
  {
    StripSurroundingSlashesEmpty(p);
  }

  /** The cleaned parts of `buildUrl`, in their order. */
  function CleanParts(parts: seq<string>): (r: seq<string>)
    ensures |r| <= |parts|
    ensures forall i | 0 <= i < |r| :: IsCleanPart(r[i])
  {
    if parts == [] then [] else CleanPart(parts[0]) + CleanParts(parts[1..])
  }

  /**
    The joining step of `buildUrl`, on a normalized base `b` and already cleaned parts:
    the parts alone when `b` is empty, `b` followed directly by the parts when `b` is a
    scheme root, and otherwise `b` and the parts separated by `/`.
   */
  function JoinBase(b: string, cleaned: seq<string>): (r: string)
    requires IsNormalized(b)
    requires forall i | 0 <= i < |cleaned| :: IsCleanPart(cleaned[i])
    ensures b <= r && IsNormalized(r)
    ensures cleaned != [] ==> r != "" && !EndsWithSlash(r)
  {
    assert forall i | 0 <= i < |cleaned| :: cleaned[i] != "" && !EndsWithSlash(cleaned[i]) by {
      forall i | 0 <= i < |cleaned| ensures cleaned[i] != "" && !EndsWithSlash(cleaned[i]) {
        assert IsCleanPart(cleaned[i]);
      }
    }
    JoinOfCleanParts(cleaned);
    if b == "" then Join(cleaned, "/")
    else if IsSchemeRoot(b) then
      assert cleaned != [] ==> (b + Join(cleaned, "/"))[|b + Join(cleaned, "/")| - 1] == Join(cleaned, "/")[|Join(cleaned, "/")| - 1];
      b + Join(cleaned, "/")
    else
      JoinOfCleanParts([b] + cleaned);
      Join([b] + cleaned, "/")
  }

  /**
    `buildUrl(base, ...parts)`: the cleaned parts joined by `/`, after the normalized base;
    no separator is added after a `scheme://` base, and none at all when the base is empty.
   */
  function BuildUrl(base: string, parts: seq<string>): (r: string)
    ensures NormalizeBase(base) <= r
    ensures IsNormalized(r)
  {
    JoinBase(NormalizeBase(base), CleanParts(parts))
  }

  /** A join of non-empty parts that do not end in `/` is non-empty, does not end in `/`, and starts with its first part. */
  lemma {:induction false} JoinOfCleanParts(parts: seq<string>)
    requires forall i | 0 <= i < |parts| :: parts[i] != "" && !EndsWithSlash(parts[i])
    ensures !EndsWithSlash(Join(parts, "/"))
    ensures parts != [] ==> parts[0] <= Join(parts, "/")
    ensures parts != [] ==> Join(parts, "/") != ""
  {
    if |parts| > 1 {
      JoinOfCleanParts(parts[1..]);
      var rest := Join(parts[1..], "/");
      assert Join(parts, "/") == parts[0] + "/" + rest;
      assert (parts[0] + "/" + rest)[|parts[0] + "/" + rest| - 1] == rest[|rest| - 1];
    }
  }

  /** Joining two non-empty lists of parts puts one separator between the two joins. */
  lemma {:induction false} JoinAppend(a: seq<string>, b: seq<string>, sep: string)
    requires a != [] && b != []
    ensures Join(a + b, sep) == Join(a, sep) + sep + Join(b, sep)
  {
    if |a| > 1 {
      JoinAppend(a[1..], b, sep);
      assert (a + b)[1..] == a[1..] + b;
    } else {
      assert (a + b)[1..] == b;
    }
  }

  /** Cleaning a list that starts with `p` is cleaning `p`, then the rest. */
  lemma CleanPartsCons(p: string, rest: seq<string>)
    ensures CleanParts([p] + rest) == CleanPart(p) + CleanParts(rest)
  {
    assert ([p] + rest)[1..] == rest;
  }

  /** Cleaning distributes over concatenation of the part lists. */
  lemma {:induction false} CleanPartsAppend(a: seq<string>, b: seq<string>)
    ensures CleanParts(a + b) == CleanParts(a) + CleanParts(b)
  {
    if a == [] {
      assert a + b == b;
    } else {
      calc {
        CleanParts(a + b);
        { assert a + b == [a[0]] + (a[1..] + b); }
        CleanParts([a[0]] + (a[1..] + b));
        { CleanPartsCons(a[0], a[1..] + b); }
        CleanPart(a[0]) + CleanParts(a[1..] + b);
        { CleanPartsAppend(a[1..], b); }
        CleanPart(a[0]) + (CleanParts(a[1..]) + CleanParts(b));
        (CleanPart(a[0]) + CleanParts(a[1..])) + CleanParts(b);
        { CleanPartsCons(a[0], a[1..]); assert a == [a[0]] + a[1..]; }
        CleanParts(a) + CleanParts(b);
      }
    }
  }

  /** Parts that are already clean are kept as they are. */
  lemma {:induction false} CleanPartsOfClean(parts: seq<string>)
    requires forall i | 0 <= i < |parts| :: IsCleanPart(parts[i])
    ensures CleanParts(parts) == parts
  {
    if parts != [] {
      CleanPartsOfClean(parts[1..]);
      assert StripLeadingSlashes(parts[0]) == parts[0];
      StripTrailingNoSlash(parts[0]);
    }
  }

  /** Cleaning is idempotent. */
  lemma CleanPartsIdempotent(parts: seq<string>)
    ensures CleanParts(CleanParts(parts)) == CleanParts(parts)
  {
    CleanPartsOfClean(CleanParts(parts));
  }

  /** With no path segments, `buildUrl` is `normalizeBase`. */
  lemma BuildUrlNoParts(base: string)
    ensures BuildUrl(base, []) == NormalizeBase(base)
  {
  }

  /** A URL that does not end in `/` is normalized to itself and is not a scheme root. */
  lemma NoTrailingSlashIsFixed(s: string)
    requires !EndsWithSlash(s)
    ensures NormalizeBase(s) == s && !IsSchemeRoot(s)
  {
    NormalizeBaseFixedPoints(s);
  }

  /** Appending cleaned parts to a non-empty, non-scheme-root base `r` puts `/` between them. */
  lemma JoinBaseAfterPlainBase(r: string, q: seq<string>)
    requires r != "" && !EndsWithSlash(r)
    requires forall i | 0 <= i < |q| :: IsCleanPart(q[i])
    ensures JoinBase(r, q) == if q == [] then r else r + "/" + Join(q, "/")
  {
    NoTrailingSlashIsFixed(r);
    if q != [] {
      JoinAppend([r], q, "/");
    }
  }

  /** `JoinBaseAppend` when both lists of parts are non-empty. */
  lemma JoinBaseAppendNonEmpty(b: string, p: seq<string>, q: seq<string>)
    requires IsNormalized(b) && p != [] && q != []
    requires forall i | 0 <= i < |p| :: IsCleanPart(p[i])
    requires forall i | 0 <= i < |q| :: IsCleanPart(q[i])
    ensures JoinBase(JoinBase(b, p), q) == JoinBase(b, p + q)
  {
    var r := JoinBase(b, p);
    JoinBaseAfterPlainBase(r, q);
    JoinAppend(p, q, "/");
    if b == "" {
      assert JoinBase(b, p + q) == Join(p + q, "/");
    } else if IsSchemeRoot(b) {
      JoinAfterRootAppend(b, p, q);
    } else {
      JoinAfterPlainAppend(b, p, q);
    }
  }

  /** Joining after a `scheme://` root: the root is a plain prefix of both joins. */
  lemma JoinAfterRootAppend(b: string, p: seq<string>, q: seq<string>)
    requires p != [] && q != []
    ensures b + Join(p + q, "/") == (b + Join(p, "/")) + "/" + Join(q, "/")
  {
    JoinAppend(p, q, "/");
  }

  /** Joining after a plain base: the base is the first part of both joins. */
  lemma JoinAfterPlainAppend(b: string, p: seq<string>, q: seq<string>)
    requires q != []
    ensures Join([b] + (p + q), "/") == Join([b] + p, "/") + "/" + Join(q, "/")
  {
    assert [b] + (p + q) == ([b] + p) + q;
    JoinAppend([b] + p, q, "/");
  }

  /** Joining in two steps is joining once, on the level of cleaned parts. */
  lemma JoinBaseAppend(b: string, p: seq<string>, q: seq<string>)
    requires IsNormalized(b)
    requires forall i | 0 <= i < |p| :: IsCleanPart(p[i])
    requires forall i | 0 <= i < |q| :: IsCleanPart(q[i])
    ensures JoinBase(NormalizeBase(JoinBase(b, p)), q) == JoinBase(b, p + q)
  {
    var r := JoinBase(b, p);
    if p == [] {
      NormalizeBaseFixedPoints(b);
      assert p + q == q;
    } else {
      NoTrailingSlashIsFixed(r);
      if q == [] {
        assert p + q == p;
      } else {
        JoinBaseAppendNonEmpty(b, p, q);
      }
    }
  }

  /**
    Building in two steps is building once: `buildUrl(buildUrl(base, ...ps), ...qs)`
    is `buildUrl(base, ...ps, ...qs)`.
   */
  lemma BuildUrlCompose(base: string, ps: seq<string>, qs: seq<string>)
    ensures BuildUrl(BuildUrl(base, ps), qs) == BuildUrl(base, ps + qs)
  {
    CleanPartsAppend(ps, qs);
    JoinBaseAppend(NormalizeBase(base), CleanParts(ps), CleanParts(qs));
  }

  /**
    The trailing-slash strip is determined by its contract: a prefix of `t` that does not
    end in `/` and is followed in `t` only by slashes is the strip of `t`.
   */
  lemma {:induction false} StripTrailingUnique(s: string, t: string)
    requires s <= t && !EndsWithSlash(s)
    requires forall i | |s| <= i < |t| :: t[i] == '/'
    ensures StripTrailingSlashes(t) == s
  {
    if |t| > |s| {
      assert t[..|t| - 1][..|s|] == s;
      StripTrailingUnique(s, t[..|t| - 1]);
    } else {
      assert t == s;
    }
  }

  /** `normalizeBase` on a URL that is `s` followed by slashes, and is not a scheme root, is `s`. */
  lemma NormalizeBaseDropsSlashes(s: string, t: string)
    requires s <= t && !EndsWithSlash(s) && !IsSchemeRoot(t)
    requires forall i | |s| <= i < |t| :: t[i] == '/'
    ensures NormalizeBase(t) == s
  {
    StripTrailingUnique(s, t);
  }

  /** One trailing slash after a URL that does not end in `/` is dropped. */
  lemma NormalizeBaseDropsOneSlash(s: string)
    requires !EndsWithSlash(s)
    ensures NormalizeBase(s + "/") == s
  {
    var t := s + "/";
    assert t[..|s|] == s;
    NormalizeBaseDropsSlashes(s, t);
  }

  /** The worked examples of `normalizeBase`, and a value made of slashes only. */
  lemma NormalizeBaseExamples()
    ensures NormalizeBase("") == ""
    ensures NormalizeBase("https://") == "https://"
    ensures NormalizeBase("https://a.com///") == "https://a.com"
    ensures NormalizeBase("///") == ""
  {
    assert "///"[..2] == "//" && "//"[..1] == "/" && "/"[..0] == "";
    assert !IsSchemeRoot("///");
    var t := "https://a.com///";
    assert t[..13] == "https://a.com";
    assert t[13] == '/';
    NormalizeBaseDropsSlashes("https://a.com", t);
  }

  /** `buildUrl("https://a.com/", "/x/", "y")` is `"https://a.com/x/y"`. */
  lemma BuildUrlExampleAbsolute()
    ensures BuildUrl("https://a.com/", ["/x/", "y"]) == "https://a.com/x/y"
  {
    NormalizeBaseDropsOneSlash("https://a.com");
    assert "https://a.com" + "/" == "https://a.com/";
    CleanPartsExampleAbsolute();
    JoinBaseExampleAbsolute();
  }

  /** The cleaning step of `BuildUrlExampleAbsolute`. */
  lemma CleanPartsExampleAbsolute()
    ensures CleanParts(["/x/", "y"]) == ["x", "y"]
  {
    assert StripLeadingSlashes("/x/") == "x/" by {
      assert "/x/"[1..] == "x/";
    }
    assert StripTrailingSlashes("x/") == "x" by {
      assert "x/"[..1] == "x";
    }
    assert ["/x/", "y"][1..] == ["y"];
    assert CleanPart("y") == ["y"];
  }

  /** The joining step of `BuildUrlExampleAbsolute`. */
  lemma JoinBaseExampleAbsolute()
    ensures JoinBase("https://a.com", ["x", "y"]) == "https://a.com/x/y"
  {
    assert !IsSchemeRoot("https://a.com");
    assert ["https://a.com"] + ["x", "y"] == ["https://a.com", "x", "y"];
    assert ["https://a.com", "x", "y"][1..] == ["x", "y"];
    assert ["x", "y"][1..] == ["y"];
  }

  /** `buildUrl("", "a", "/b/")` is `"a/b"`. */
  lemma BuildUrlExampleRelative()
    ensures BuildUrl("", ["a", "/b/"]) == "a/b"
  {
    CleanPartsExampleRelative();
    JoinBaseExampleRelative();
  }

  /** The joining step of `BuildUrlExampleRelative`. */
  lemma JoinBaseExampleRelative()
    ensures JoinBase("", ["a", "b"]) == "a/b"
  {
    assert ["a", "b"][1..] == ["b"];
  }

  /** The cleaning step of `BuildUrlExampleRelative`. */
  lemma CleanPartsExampleRelative()
    ensures CleanParts(["a", "/b/"]) == ["a", "b"]
  {
    assert StripLeadingSlashes("/b/") == "b/" by {
      assert "/b/"[1..] == "b/";
    }
    assert StripTrailingSlashes("b/") == "b" by {
      assert "b/"[..1] == "b";
    }
    assert ["a", "/b/"][1..] == ["/b/"];
    assert CleanPart("a") == ["a"];
  }

  /** `buildUrl("https://", "a")` is `"https://a"`: no separator after a scheme root. */
  lemma BuildUrlExampleSchemeRoot()
    ensures BuildUrl("https://", ["a"]) == "https://a"
  {
    assert CleanParts(["a"]) == ["a"] by {
      assert CleanPart("a") == ["a"];
    }
    assert IsSchemeRoot("https://");
    assert BuildUrl("https://", ["a"]) == JoinBase("https://", ["a"]);
    assert JoinBase("https://", ["a"]) == "https://" + Join(["a"], "/");
  }
}
