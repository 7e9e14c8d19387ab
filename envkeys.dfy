/**
  Derivation of a service's environment-variable key: `sanitizeServiceName` trims the
  name, turns every character other than an ASCII letter or digit into `_`, collapses
  runs of `_`, strips `_` at both ends and upper-cases the result; `toEnvKey` appends
  `_BASE_URL`.
 */
module EnvKeys {
  import opened Urls

  const BASE_URL_SUFFIX := "_BASE_URL"

  predicate IsAsciiAlnum(c: char) {
    IsAsciiLetter(c) || IsAsciiDigit(c)
  }

  predicate IsAsciiUpper(c: char) {
    'A' <= c <= 'Z'
  }

  predicate IsAsciiLower(c: char) {
    'a' <= c <= 'z'
  }

  /**
    The characters `String.prototype.trim` removes: the ECMAScript WhiteSpace code points
    (tab, vertical tab, form feed, space, no-break space, the byte order mark and the other
    space separators) and the LineTerminator code points.
   */
  predicate IsJsWhitespace(c: char) {
    var n := c as int;
    || (0x09 <= n <= 0x0D) || n == 0x20 || n == 0xA0 || n == 0x1680
    || (0x2000 <= n <= 0x200A) || n == 0x2028 || n == 0x2029 || n == 0x202F
    || n == 0x205F || n == 0x3000 || n == 0xFEFF
  }

  function TrimStart(s: string): string {
    if |s| > 0 && IsJsWhitespace(s[0]) then TrimStart(s[1..]) else s
  }

  function TrimEnd(s: string): string {
    if |s| > 0 && IsJsWhitespace(s[|s| - 1]) then TrimEnd(s[..|s| - 1]) else s
  }

  /** `name.trim()`. */
  function Trim(s: string): string {
    TrimEnd(TrimStart(s))
  }

  /** `.replace(/[^a-zA-Z0-9]/g, "_")`: letters and digits stay, every other character becomes `_`. */
  function ReplaceNonAlnum(s: string): string {
    seq(|s|, i requires 0 <= i < |s| => if IsAsciiAlnum(s[i]) then s[i] else '_')
  }

  /** Every character is an ASCII letter, an ASCII digit or `_`. */
  predicate IsWordString(s: string) {
    forall i | 0 <= i < |s| :: IsAsciiAlnum(s[i]) || s[i] == '_'
  }

  /** No two consecutive `_`. */
  predicate NoDoubleUnderscore(s: string) {
    forall i | 0 <= i < |s| - 1 :: !(s[i] == '_' && s[i + 1] == '_')
  }

  /** `.replace(/_+/g, "_")`: every run of `_` becomes a single `_`. */
  function CollapseUnderscores(s: string): string {
    if |s| <= 1 then s
    else if s[0] == '_' && s[1] == '_' then CollapseUnderscores(s[1..])
    else [s[0]] + CollapseUnderscores(s[1..])
  }

  /**
    Collapsing leaves no two consecutive underscores, keeps the first character, and
    introduces no character other than those of a word string.
   */
  lemma {:induction false} CollapseShape(s: string)
    ensures NoDoubleUnderscore(CollapseUnderscores(s))
    ensures IsWordString(s) ==> IsWordString(CollapseUnderscores(s))
    ensures s != "" ==> CollapseUnderscores(s) != "" && CollapseUnderscores(s)[0] == s[0]
  {
    if |s| > 1 {
      CollapseShape(s[1..]);
      var t := CollapseUnderscores(s[1..]);
      assert IsWordString(s) ==> IsWordString(s[1..]) by {
        forall i | 0 <= i < |s[1..]| ensures s[1..][i] == s[i + 1] { }
      }
      if !(s[0] == '_' && s[1] == '_') {
        var r := [s[0]] + t;
        assert r[1..] == t;
        assert t[0] == s[1];
      }
    }
  }

  /** The `^_+` half of `.replace(/^_+|_+$/g, "")`. */
  function StripLeadingUnderscores(s: string): string {
    if |s| > 0 && s[0] == '_' then StripLeadingUnderscores(s[1..]) else s
  }

  /** Stripping leading underscores leaves a suffix that does not start with `_`. */
  lemma {:induction false} StripLeadingUnderscoresShape(s: string)
    ensures |StripLeadingUnderscores(s)| <= |s|
    ensures StripLeadingUnderscores(s) == s[|s| - |StripLeadingUnderscores(s)|..]
    ensures StripLeadingUnderscores(s) == "" || StripLeadingUnderscores(s)[0] != '_'
  {
    if |s| > 0 && s[0] == '_' {
      StripLeadingUnderscoresShape(s[1..]);
    }
  }

  /** The `_+$` half of `.replace(/^_+|_+$/g, "")`. */
  function StripTrailingUnderscores(s: string): string {
    if |s| > 0 && s[|s| - 1] == '_' then StripTrailingUnderscores(s[..|s| - 1]) else s
  }

  /** Stripping trailing underscores leaves a prefix that does not end in `_`. */
  lemma {:induction false} StripTrailingUnderscoresShape(s: string)
    ensures StripTrailingUnderscores(s) <= s
    ensures StripTrailingUnderscores(s) == "" || StripTrailingUnderscores(s)[|StripTrailingUnderscores(s)| - 1] != '_'
  {
    if |s| > 0 && s[|s| - 1] == '_' {
      StripTrailingUnderscoresShape(s[..|s| - 1]);
    }
  }

  function ToUpperAsciiChar(c: char): char {
    if IsAsciiLower(c) then (c as int - 'a' as int + 'A' as int) as char else c
  }

  /**
    `.toUpperCase()` on ASCII letters, digits and `_`, the only characters left at that
    point of the pipeline.
   */
  function ToUpperAscii(s: string): string {
    seq(|s|, i requires 0 <= i < |s| => ToUpperAsciiChar(s[i]))
  }

  /** `sanitizeServiceName(name)`. */
  function SanitizeServiceName(name: string): string {
    ToUpperAscii(StripTrailingUnderscores(StripLeadingUnderscores(
      CollapseUnderscores(ReplaceNonAlnum(Trim(name))))))
  }

  /**
    The shape of a sanitized name: upper-case ASCII letters, digits and single
    underscores, with no `_` at either end.
   */
  predicate IsEnvToken(t: string) {
    && (forall i | 0 <= i < |t| :: IsAsciiUpper(t[i]) || IsAsciiDigit(t[i]) || t[i] == '_')
    && NoDoubleUnderscore(t)
    && (t == "" || (t[0] != '_' && t[|t| - 1] != '_'))
  }

  /** `toEnvKey(name)`: the sanitized name followed by `_BASE_URL`. */
  function ToEnvKey(name: string): (r: string)
    ensures |r| >= |BASE_URL_SUFFIX| && r[|r| - |BASE_URL_SUFFIX|..] == BASE_URL_SUFFIX
    ensures IsEnvToken(r[..|r| - |BASE_URL_SUFFIX|])
  {
    var t := SanitizeServiceName(name);
    SanitizeIsEnvToken(name);
    var r := t + BASE_URL_SUFFIX;
    assert r[..|t|] == t && r[|t|..] == BASE_URL_SUFFIX;
    r
  }

  /** Dropping a prefix keeps a word string free of double underscores. */
  lemma SuffixKeepsWordShape(s: string, k: nat)
    requires k <= |s| && IsWordString(s) && NoDoubleUnderscore(s)
    ensures IsWordString(s[k..]) && NoDoubleUnderscore(s[k..])
  {
    var t := s[k..];
    forall i | 0 <= i < |t| ensures t[i] == s[k + i] { }
  }

  /** Dropping a suffix keeps a word string free of double underscores. */
  lemma PrefixKeepsWordShape(s: string, k: nat)
    requires k <= |s| && IsWordString(s) && NoDoubleUnderscore(s)
    ensures IsWordString(s[..k]) && NoDoubleUnderscore(s[..k])
  {
  }

  /** Upper-casing a word string with single, inner underscores gives an environment-key token. */
  lemma UpperOfWordIsToken(t: string)
    requires IsWordString(t) && NoDoubleUnderscore(t)
    requires t == "" || (t[0] != '_' && t[|t| - 1] != '_')
    ensures IsEnvToken(ToUpperAscii(t))
  {
    var u := ToUpperAscii(t);
    forall i | 0 <= i < |u| ensures u[i] == '_' <==> t[i] == '_' { }
  }

  /** Every sanitized name has the shape of an environment-key token. */
  lemma SanitizeIsEnvToken(name: string)
    ensures IsEnvToken(SanitizeServiceName(name))
  {
    var c := CollapseUnderscores(ReplaceNonAlnum(Trim(name)));
    CollapseShape(ReplaceNonAlnum(Trim(name)));
    var l := StripLeadingUnderscores(c);
    var t := StripTrailingUnderscores(l);
    StripLeadingUnderscoresShape(c);
    StripTrailingUnderscoresShape(l);
    SuffixKeepsWordShape(c, |c| - |l|);
    PrefixKeepsWordShape(l, |t|);
    assert l[..|t|] == t;
    assert t != "" ==> t[0] == l[0];
    UpperOfWordIsToken(t);
  }

  /** Collapsing leaves a string without double underscores unchanged. */
  lemma {:induction false} CollapseOfSingle(s: string)
    requires NoDoubleUnderscore(s)
    ensures CollapseUnderscores(s) == s
  {
    if |s| > 1 {
      assert NoDoubleUnderscore(s[1..]) by {
        forall i | 0 <= i < |s[1..]| - 1 ensures !(s[1..][i] == '_' && s[1..][i + 1] == '_') {
          assert s[1..][i] == s[i + 1] && s[1..][i + 1] == s[i + 2];
        }
      }
      CollapseOfSingle(s[1..]);
      assert !(s[0] == '_' && s[1] == '_');
      assert s == [s[0]] + s[1..];
    }
  }

  /** Sanitizing leaves an environment-key token unchanged. */
  lemma SanitizeOfToken(t: string)
    requires IsEnvToken(t)
    ensures SanitizeServiceName(t) == t
  {
    assert Trim(t) == t by {
      assert t != "" ==> !IsJsWhitespace(t[0]) && !IsJsWhitespace(t[|t| - 1]);
    }
    assert ReplaceNonAlnum(t) == t;
    CollapseOfSingle(t);
    assert StripLeadingUnderscores(t) == t;
    assert StripTrailingUnderscores(t) == t;
    assert ToUpperAscii(t) == t;
  }

  /** `sanitizeServiceName` is idempotent. */
  lemma SanitizeIdempotent(name: string)
    ensures SanitizeServiceName(SanitizeServiceName(name)) == SanitizeServiceName(name)
  {
    SanitizeIsEnvToken(name);
    SanitizeOfToken(SanitizeServiceName(name));
  }

  /** A name that already is a token `T` has the key `T_BASE_URL`. */
  lemma ToEnvKeyOfToken(t: string)
    requires IsEnvToken(t)
    ensures ToEnvKey(t) == t + BASE_URL_SUFFIX
  {
    SanitizeOfToken(t);
  }

  /** `toEnvKey("content")` is `"CONTENT_BASE_URL"`. */
  lemma ToEnvKeyExampleContent()
    ensures ToEnvKey("content") == "CONTENT_BASE_URL"
  {
    SanitizeExampleContent();
    assert "CONTENT" + BASE_URL_SUFFIX == "CONTENT_BASE_URL";
  }

  /** The sanitizing step of `ToEnvKeyExampleContent`. */
  lemma SanitizeExampleContent()
    ensures SanitizeServiceName("content") == "CONTENT"
  {
    TrimExampleContent();
    ReplaceExampleContent();
    CollapseExampleContent();
    assert StripLeadingUnderscores("content") == "content";
    assert StripTrailingUnderscores("content") == "content";
    UpperExampleContent();
  }

  /** The collapsing step of `ToEnvKeyExampleContent`: no underscores to collapse. */
  lemma CollapseExampleContent()
    ensures CollapseUnderscores("content") == "content"
  {
    var n := "content";
    assert NoDoubleUnderscore(n) by {
      forall i | 0 <= i < |n| - 1 ensures n[i] != '_' {
        assert i == 0 || i == 1 || i == 2 || i == 3 || i == 4 || i == 5;
      }
    }
    CollapseOfSingle(n);
  }

  /** The upper-casing step of `ToEnvKeyExampleContent`. */
  lemma UpperExampleContent()
    ensures ToUpperAscii("content") == "CONTENT"
  {
    var t, u := "content", "CONTENT";
    forall i | 0 <= i < |t| ensures ToUpperAsciiChar(t[i]) == u[i] {
      assert i == 0 || i == 1 || i == 2 || i == 3 || i == 4 || i == 5 || i == 6;
    }
    UpperExample(t, u);
  }

  /** The trimming step of `ToEnvKeyExampleContent`: nothing to trim. */
  lemma TrimExampleContent()
    ensures Trim("content") == "content"
  {
    var n := "content";
    assert TrimStart(n) == n;
    assert TrimEnd(n) == n;
  }

  /** The replacing step of `ToEnvKeyExampleContent`. */
  lemma ReplaceExampleContent()
    ensures ReplaceNonAlnum("content") == "content"
  {
    var n := "content";
    forall i | 0 <= i < |n| ensures IsAsciiAlnum(n[i]) {
      assert i == 0 || i == 1 || i == 2 || i == 3 || i == 4 || i == 5 || i == 6;
    }
  }

  /** Upper-casing a literal, checked character by character. */
  lemma UpperExample(s: string, u: string)
    requires |s| == |u| && forall i | 0 <= i < |s| :: ToUpperAsciiChar(s[i]) == u[i]
    ensures ToUpperAscii(s) == u
  {
  }

  /**
    A prefix without double underscores that does not end in `_` passes through
    collapsing unchanged.
   */
  lemma {:induction false} CollapseAppend(a: string, b: string)
    requires NoDoubleUnderscore(a) && (a == "" || a[|a| - 1] != '_')
    ensures CollapseUnderscores(a + b) == a + CollapseUnderscores(b)
  {
    if a != "" {
      var ab := a + b;
      assert ab[1..] == a[1..] + b;
      assert !(ab[0] == '_' && ab[1] == '_') by {
        if |a| > 1 {
          assert ab[1] == a[1];
        } else {
          assert a[0] != '_';
        }
      }
      assert NoDoubleUnderscore(a[1..]) by {
        forall i | 0 <= i < |a[1..]| - 1 ensures !(a[1..][i] == '_' && a[1..][i + 1] == '_') {
          assert a[1..][i] == a[i + 1] && a[1..][i + 1] == a[i + 2];
        }
      }
      if |ab| > 1 {
        CollapseAppend(a[1..], b);
        calc {
          CollapseUnderscores(ab);
          [a[0]] + CollapseUnderscores(a[1..] + b);
          [a[0]] + (a[1..] + CollapseUnderscores(b));
          { assert a == [a[0]] + a[1..]; }
          a + CollapseUnderscores(b);
        }
      } else {
        assert b == "" && ab == a;
      }
    } else {
      assert a + b == b;
    }
  }

  /** `toEnvKey("my service!!")` is `"MY_SERVICE_BASE_URL"`. */
  lemma ToEnvKeyExampleSpaced()
    ensures ToEnvKey("my service!!") == "MY_SERVICE_BASE_URL"
  {
    SanitizeExampleSpaced();
    assert "MY_SERVICE" + BASE_URL_SUFFIX == "MY_SERVICE_BASE_URL";
  }

  /** The sanitizing step of `ToEnvKeyExampleSpaced`. */
  lemma SanitizeExampleSpaced()
    ensures SanitizeServiceName("my service!!") == "MY_SERVICE"
  {
    TrimExampleSpaced();
    ReplaceExampleSpaced();
    CollapseExampleSpaced();
    StripExampleSpaced();
    UpperExampleSpaced();
  }

  /** The trimming step of `ToEnvKeyExampleSpaced`: nothing to trim. */
  lemma TrimExampleSpaced()
    ensures Trim("my service!!") == "my service!!"
  {
    var n := "my service!!";
    assert TrimStart(n) == n;
    assert TrimEnd(n) == n;
  }

  /** The stripping steps of `ToEnvKeyExampleSpaced`. */
  lemma StripExampleSpaced()
    ensures StripTrailingUnderscores(StripLeadingUnderscores("my_service_")) == "my_service"
  {
    var c, t := "my_service_", "my_service";
    assert StripLeadingUnderscores(c) == c;
    assert c[..|c| - 1] == t;
    assert StripTrailingUnderscores(t) == t;
  }

  /** The replacing step of `ToEnvKeyExampleSpaced`. */
  lemma ReplaceExampleSpaced()
    ensures ReplaceNonAlnum("my service!!") == "my_service__"
  {
    var n, r := "my service!!", "my_service__";
    var x := ReplaceNonAlnum(n);
    forall i | 0 <= i < |n| ensures x[i] == r[i] {
      assert i == 0 || i == 1 || i == 2 || i == 3 || i == 4 || i == 5 || i == 6
          || i == 7 || i == 8 || i == 9 || i == 10 || i == 11;
    }
  }

  /** The collapsing step of `ToEnvKeyExampleSpaced`. */
  lemma CollapseExampleSpaced()
    ensures CollapseUnderscores("my_service__") == "my_service_"
  {
    var w := "my_service";
    assert NoDoubleUnderscore(w) by {
      forall i | 0 <= i < |w| - 1 ensures !(w[i] == '_' && w[i + 1] == '_') {
        assert i == 0 || i == 1 || i == 2 || i == 3 || i == 4 || i == 5 || i == 6
            || i == 7 || i == 8;
      }
    }
    assert "my_service__" == w + "__";
    CollapseAppend(w, "__");
    assert CollapseUnderscores("__") == "_" by {
      assert "__"[1..] == "_";
    }
  }

  /** The upper-casing step of `ToEnvKeyExampleSpaced`. */
  lemma UpperExampleSpaced()
    ensures ToUpperAscii("my_service") == "MY_SERVICE"
  {
    var t, u := "my_service", "MY_SERVICE";
    forall i | 0 <= i < |t| ensures ToUpperAsciiChar(t[i]) == u[i] {
      assert i == 0 || i == 1 || i == 2 || i == 3 || i == 4 || i == 5 || i == 6
          || i == 7 || i == 8 || i == 9;
    }
    UpperExample(t, u);
  }
}
