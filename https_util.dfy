/**
 * `ensureHttps`: the scheme rewrite applied to the token endpoint and to the
 * protected API's base URL before any request is sent.
 */
module HttpsUtil {
  import opened Wrappers
  import opened Strings

  const Https: string := "https://"
  const Http: string := "http://"
  const SchemeSeparator: string := "://"

  /**
   * Where the match of the anchored pattern `^[^:]+:\/\/` ends, if it matches:
   * one or more non-colon characters followed by `://`.  Since the scheme part
   * cannot hold a colon, it can only end at the first colon of `u`.
   */
  function SchemeMatchEnd(u: string): (r: Option<nat>)
    ensures r.Some? ==> 4 <= r.value <= |u| && u[r.value - 3..r.value] == SchemeSeparator && ':' !in u[..r.value - 3]
  {
    match IndexOfChar(u, ':')
    case None => None
    case Some(i) =>
      if i >= 1 && StartsWith(u[i..], SchemeSeparator) then
        assert u[i..i + 3] == u[i..][..3];
        Some(i + 3)
      else None
  }

  /** A URL that begins with a non-empty colon-free scheme and `://` matches the pattern right there. */
  lemma PrefixSchemeEnd(u: string, scheme: string)
    ensures scheme != "" && ':' !in scheme && StartsWith(u, scheme + SchemeSeparator) ==>
      SchemeMatchEnd(u) == Some(|scheme| + 3)
  {
    var n := |scheme|;
    if scheme != "" && ':' !in scheme && StartsWith(u, scheme + SchemeSeparator) {
      assert u[..n] == (scheme + SchemeSeparator)[..n] == scheme;
      assert u[n] == (scheme + SchemeSeparator)[n] == ':';
      IndexOfCharAt(u, ':', n);
      assert u[n..][..3] == (scheme + SchemeSeparator)[n..n + 3] == SchemeSeparator;
    }
  }

  /** Both `https://` and `http://` URLs match the pattern. */
  lemma WebSchemesMatch(u: string)
    ensures StartsWith(u, Https) ==> SchemeMatchEnd(u) == Some(8)
    ensures StartsWith(u, Http) ==> SchemeMatchEnd(u) == Some(7)
    ensures StartsWith(u, Https) || StartsWith(u, Http) ==> Contains(u, SchemeSeparator)
  {
    assert "https" + SchemeSeparator == Https;
    assert "http" + SchemeSeparator == Http;
    PrefixSchemeEnd(u, "https");
    PrefixSchemeEnd(u, "http");
    if StartsWith(u, Https) || StartsWith(u, Http) {
      var e := SchemeMatchEnd(u).value;
      assert u[e - 3..][..3] == SchemeSeparator;
      ContainsAt(u, SchemeSeparator, e - 3);
    }
  }

  /** A URL without a colon has no `://`. */
  lemma NoColonNoSeparator(u: string)
    ensures ':' !in u ==> !Contains(u, SchemeSeparator)
  {
    ContainsFirstChar(u, SchemeSeparator);
  }

  /** The URL with its scheme forced to HTTPS, following the source's branches in order. */
  function EnsureHttps(url: string): string {
    if url == "" then url
    else if StartsWith(url, Https) then url
    else if StartsWith(url, Http) then ReplaceFirst(url, Http, Https)
    else if !Contains(url, SchemeSeparator) then Https + url
    else match SchemeMatchEnd(url)
      case Some(e) => Https + url[e..]
      case None => url
  }

  /** The empty URL is returned unchanged. */
  lemma EmptyUnchanged()
    ensures EnsureHttps("") == ""
  {
  }

  /** A URL that is already HTTPS is returned unchanged. */
  lemma HttpsUnchanged(rest: string)
    ensures EnsureHttps(Https + rest) == Https + rest
  {
    assert (Https + rest)[..|Https|] == Https;
  }

  /** `http://rest` becomes `https://rest`. */
  lemma HttpUpgraded(rest: string)
    ensures EnsureHttps(Http + rest) == Https + rest
  {
    var u := Http + rest;
    assert u[..|Http|] == Http;
    assert u[|Http|..] == rest;
    assert u[4] == ':';
  }

  /** A URL without `://` gets `https://` prepended. */
  lemma NoSchemePrefixed(u: string)
    requires u != "" && !Contains(u, SchemeSeparator)
    ensures EnsureHttps(u) == Https + u
  {
    WebSchemesMatch(u);
  }

  /** Any non-empty, colon-free scheme in front of `://` is replaced by `https`. */
  lemma SchemeReplaced(scheme: string, rest: string)
    requires scheme != "" && ':' !in scheme
    ensures EnsureHttps(scheme + SchemeSeparator + rest) == Https + rest
  {
    var u := scheme + SchemeSeparator + rest;
    var n := |scheme|;
    assert u[..n + 3] == scheme + SchemeSeparator;
    assert u[n + 3..] == rest;
    PrefixSchemeEnd(u, scheme);
    WebSchemesMatch(u);
    assert u[n..][..3] == SchemeSeparator;
    ContainsAt(u, SchemeSeparator, n);
    if StartsWith(u, Http) {
      assert ReplaceFirst(u, Http, Https) == Https + u[7..];
    }
  }

  /** A URL whose `://` is not preceded by a non-empty colon-free scheme is left alone. */
  lemma UnmatchedUnchanged(u: string)
    requires Contains(u, SchemeSeparator) && SchemeMatchEnd(u).None?
    ensures EnsureHttps(u) == u
  {
    WebSchemesMatch(u);
  }

  /** The two kinds of input the pattern does not match come back unchanged. */
  lemma UnmatchedExamples()
    ensures EnsureHttps("://x") == "://x"
    ensures EnsureHttps("a:b://c") == "a:b://c"
  {
    assert StartsWith("://x", SchemeSeparator);
    IndexOfCharAt("://x", ':', 0);
    UnmatchedUnchanged("://x");
    var v := "a:b://c";
    assert v[3..][..3] == SchemeSeparator;
    ContainsAt(v, SchemeSeparator, 3);
    assert v[..1] == "a";
    IndexOfCharAt(v, ':', 1);
    assert v[1..][..3] == ":b:";
    UnmatchedUnchanged(v);
  }

  /**
   * The result starts with `https://` exactly when the input is non-empty and has
   * either no `://` or a scheme the pattern matches; otherwise it is the input.
   */
  lemma SecureOrUnchanged(u: string)
    ensures StartsWith(EnsureHttps(u), Https) <==>
      u != "" && (!Contains(u, SchemeSeparator) || SchemeMatchEnd(u).Some?)
    ensures !StartsWith(EnsureHttps(u), Https) ==> EnsureHttps(u) == u
  {
    WebSchemesMatch(u);
    var r := EnsureHttps(u);
    if u != "" && !StartsWith(u, Https) && (!Contains(u, SchemeSeparator) || SchemeMatchEnd(u).Some?) {
      if StartsWith(u, Http) {
        assert r == Https + u[7..];
      }
      assert r[..8] == Https;
    }
  }

  /** Enforcing HTTPS twice is the same as enforcing it once. */
  lemma Idempotent(u: string)
    ensures EnsureHttps(EnsureHttps(u)) == EnsureHttps(u)
  {
    SecureOrUnchanged(u);
    var r := EnsureHttps(u);
    if StartsWith(r, Https) {
      assert r == Https + r[8..];
      HttpsUnchanged(r[8..]);
    }
  }

  /**
   * The sample URLs of the authentication smoke script: `http://id.who.int/icd/entity/123`,
   * `https://id.who.int/icd/entity/456` and `id.who.int/icd/entity/789` all map to
   * `https://id.who.int/icd/entity/...`.
   */
  lemma SampleUrls(p123: string, p456: string, p789: string)
    requires p123 == "id.who.int/icd/entity/123"
    requires p456 == "id.who.int/icd/entity/456"
    requires p789 == "id.who.int/icd/entity/789"
    ensures EnsureHttps(Http + p123) == Https + p123
    ensures EnsureHttps(Https + p456) == Https + p456
    ensures EnsureHttps(p789) == Https + p789
  {
    HttpUpgraded(p123);
    HttpsUnchanged(p456);
    assert ':' !in p789;
    NoColonNoSeparator(p789);
    NoSchemePrefixed(p789);
  }
}
