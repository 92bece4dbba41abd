/** The Lambda's URL handling: the path component that Python's `urlparse`
    reports, the trailing-slash normalisation of the configured base URL and
    phone-service path, and the phone-call collection path built from them.
    The path model follows CPython's `urlsplit` for scheme, network location,
    query and fragment; `;`-parameters, whitespace stripping and IPv6 host
    validation are not modelled. */
module Urls {

  import opened Text

  predicate IsAsciiLetter(c: char)
  {
    'a' <= c <= 'z' || 'A' <= c <= 'Z'
  }

  /** Characters Python accepts in a URL scheme. */
  predicate IsSchemeChar(c: char)
  {
    IsAsciiLetter(c) || '0' <= c <= '9' || c == '+' || c == '-' || c == '.'
  }

  /** The length of the `scheme:` prefix `urlsplit` strips, or 0 when the
      text before the first colon is not a scheme. */
  function SchemeLength(u: string): (n: nat)
    ensures n <= |u|
    ensures n > 0 ==> u[n - 1] == ':'
  {
    var i := FirstOf(u, {':'});
    if 0 < i < |u| && IsAsciiLetter(u[0]) && forall j :: 0 <= j < i ==> IsSchemeChar(u[j]) then i + 1
    else 0
  }

  /** The text after the scheme, if there is one. */
  function AfterScheme(u: string): string
  {
    u[SchemeLength(u)..]
  }

  /** Drops a `//`-network location, which runs to the first `/`, `?` or
      `#`. */
  function StripNetloc(rest: string): string
  {
    if StartsWith(rest, "//") then rest[2..][FirstOf(rest[2..], {'/', '?', '#'})..]
    else rest
  }

  /** Cuts the query and the fragment off. */
  function CutQuery(s: string): string
  {
    s[..FirstOf(s, {'?', '#'})]
  }

  /** The path component `urlparse(u).path`. */
  function UrlPath(u: string): (r: string)
    ensures '?' !in r && '#' !in r
    ensures SchemeLength(u) == 0 && !StartsWith(u, "//") && '?' !in u && '#' !in u ==> r == u
  {
    CutQuery(StripNetloc(AfterScheme(u)))
  }

  lemma SchemeLengthAppend(u: string, t: string)
    requires t == "/"
    ensures SchemeLength(u + t) == SchemeLength(u)
  {
    if FirstOf(u, {':'}) == |u| {
      FirstOfAppendClear(u, t, {':'});
    } else {
      FirstOfAppendHit(u, t, {':'});
      assert forall j :: 0 <= j < |u| ==> (u + t)[j] == u[j];
    }
  }

  lemma AfterSchemeAppend(u: string)
    ensures AfterScheme(u + "/") == AfterScheme(u) + "/"
  {
    SchemeLengthAppend(u, "/");
  }

  lemma CutQueryClear(s: string)
    requires '?' !in s && '#' !in s
    ensures CutQuery(s) == s
  {
  }

  lemma StripNetlocAppend(rest: string)
    requires '?' !in rest && '#' !in rest
    requires StripNetloc(rest) == ""
    ensures StripNetloc(rest + "/") == "/"
  {
    if StartsWith(rest, "//") {
      var x := rest[2..];
      assert (rest + "/")[2..] == x + "/";
      assert StartsWith(rest + "/", "//");
      FirstOfAppendClear(x, "/", {'/', '?', '#'});
      assert (x + "/")[|x|..] == "/";
    } else {
      assert rest == "";
      assert !StartsWith("/", "//");
    }
  }

  /** Appending `/` to a URL with an empty path and no query or fragment gives
      it the path `/`. */
  lemma AppendSlashGivesPath(u: string)
    ensures '?' !in u && '#' !in u && UrlPath(u) == "" ==> UrlPath(u + "/") == "/"
  {
    if '?' !in u && '#' !in u && UrlPath(u) == "" {
      var rest := AfterScheme(u);
      AfterSchemeAppend(u);
      SuffixChars(u, SchemeLength(u));
      StripNetlocChars(rest);
      CutQueryClear(StripNetloc(rest));
      StripNetlocAppend(rest);
    }
  }

  /** A suffix holds no character its text does not. */
  lemma SuffixChars(s: string, i: nat)
    requires i <= |s|
    ensures forall c :: c in s[i..] ==> c in s
  {
  }

  /** Dropping the network location leaves a suffix. */
  lemma StripNetlocChars(rest: string)
    ensures forall c :: c in StripNetloc(rest) ==> c in rest
  {
    if StartsWith(rest, "//") {
      SuffixChars(rest, 2);
      SuffixChars(rest[2..], FirstOf(rest[2..], {'/', '?', '#'}));
    }
  }

  /** Lines 48-51 as written: the value is kept when `urlparse` finds a
      non-empty path and gets `/` appended otherwise. */
  function NormalizeAsWritten(u: string): (r: string)
    ensures r == u || r == u + "/"
    ensures '?' !in u && '#' !in u ==> UrlPath(r) != ""
  {
    if UrlPath(u) != "" then u
    else
      AppendSlashGivesPath(u);
      u + "/"
  }

  /** Without a query or fragment, normalising twice changes nothing more. */
  lemma NormalizeAsWrittenIdempotent(u: string)
    requires '?' !in u && '#' !in u
    ensures NormalizeAsWritten(NormalizeAsWritten(u)) == NormalizeAsWritten(u)
  {
  }

  /** A URL starting `https:` has that scheme stripped. */
  lemma HttpsScheme(u: string)
    requires StartsWith(u, "https:")
    ensures AfterScheme(u) == u[6..]
  {
    assert u[..6] == "https:";
    assert forall j :: 0 <= j < 6 ==> u[j] == "https:"[j];
    FirstOfAt(u, {':'}, 5);
  }

  /** Without a colon there is no scheme. */
  lemma NoScheme(u: string)
    requires ':' !in u
    ensures AfterScheme(u) == u
  {
    FirstOfAt(u, {':'}, |u|);
  }

  /** A network location made of one host ends where the tail begins. */
  lemma StripHost(rest: string, host: string, tail: string)
    requires rest == "//" + host + tail
    requires '/' !in host && '?' !in host && '#' !in host
    requires |tail| > 0 && tail[0] in {'/', '?', '#'}
    ensures StripNetloc(rest) == tail
  {
    assert StartsWith(rest, "//");
    assert rest[2..] == host + tail;
    FirstOfAt(host + tail, {'/', '?', '#'}, |host|);
    assert (host + tail)[|host|..] == tail;
  }

  /** A text that opens a query has an empty path part. */
  lemma QueryOnly(s: string)
    requires |s| > 0 && s[0] == '?'
    ensures CutQuery(s) == ""
  {
    FirstOfAt(s, {'?', '#'}, 0);
  }

  /** `https://h?q` has an empty path: `h` is the network location and
      `?q` the query. */
  lemma QueryUrlPath(h: string, q: string)
    requires '/' !in h && '?' !in h && '#' !in h
    ensures UrlPath("https://" + h + "?" + q) == ""
  {
    var u := "https://" + h + "?" + q;
    assert u[..6] == "https:";
    HttpsScheme(u);
    assert u[6..] == "//" + h + ("?" + q);
    StripHost(u[6..], h, "?" + q);
    QueryOnly("?" + q);
  }

  /** With a query, the appended `/` lands in the query, the path stays empty,
      and a second normalisation appends another `/`. */
  lemma NormalizeAsWrittenNotIdempotentWithQuery(h: string, q: string)
    requires '/' !in h && '?' !in h && '#' !in h
    ensures var u := "https://" + h + "?" + q;
      && NormalizeAsWritten(u) == u + "/"
      && NormalizeAsWritten(NormalizeAsWritten(u)) == u + "//"
  {
    var u := "https://" + h + "?" + q;
    QueryGetsSlash(h, q);
    QueryGetsSlash(h, q + "/");
    assert u + "/" == "https://" + h + "?" + (q + "/");
    assert u + "/" + "/" == u + "//";
  }

  /** Normalising `https://h?q` appends a `/` to the query. */
  lemma QueryGetsSlash(h: string, q: string)
    requires '/' !in h && '?' !in h && '#' !in h
    ensures NormalizeAsWritten("https://" + h + "?" + q) == "https://" + h + "?" + q + "/"
  {
    QueryUrlPath(h, q);
  }

  /** A rooted relative reference without colon, query or fragment is all
      path. */
  lemma RootedPath(u: string)
    requires ':' !in u && '?' !in u && '#' !in u
    requires |u| >= 2 && u[0] == '/' && u[1] != '/'
    ensures UrlPath(u) == u
  {
    NoScheme(u);
    CutQueryClear(u);
  }

  /** The documented phone-service path with its trailing slash left off. */
  const ServicePathWithoutSlash := "/sap/c4c/api/v1/phone-service"

  /** That path is a relative reference whose whole text is its path. */
  lemma ServicePathIsPath()
    ensures UrlPath(ServicePathWithoutSlash) == ServicePathWithoutSlash
  {
    var u := ServicePathWithoutSlash;
    assert forall c :: c in u ==> c != ':' && c != '?' && c != '#';
    RootedPath(u);
  }

  /** A value with a non-empty path is kept as it is, slash or no slash. */
  lemma PathfulKept(u: string)
    requires UrlPath(u) != ""
    ensures NormalizeAsWritten(u) == u
    ensures PhoneCallPathAsWritten(u) == u + "phoneCalls"
  {
  }

  /** Because that path parses as non-empty, the as-written normalisation
      leaves the missing slash missing and `phoneCalls` is glued onto the
      last segment: `/sap/c4c/api/v1/phone-servicephoneCalls`. */
  lemma NormalizeAsWrittenKeepsMissingSlash()
    ensures NormalizeAsWritten(ServicePathWithoutSlash) == ServicePathWithoutSlash
    ensures PhoneCallPathAsWritten(ServicePathWithoutSlash) == ServicePathWithoutSlash + "phoneCalls"
    ensures !EndsWith(PhoneCallPathAsWritten(ServicePathWithoutSlash), "/phoneCalls")
  {
    ServicePathIsPath();
    PathfulKept(ServicePathWithoutSlash);
    var r := ServicePathWithoutSlash + "phoneCalls";
    assert r[|r| - 11] == 'e';
  }

  /** Line 53 as written: the phone-call collection path. */
  function PhoneCallPathAsWritten(servicePath: string): (r: string)
    ensures StartsWith(r, servicePath) && EndsWith(r, "phoneCalls")
  {
    var r := NormalizeAsWritten(servicePath) + "phoneCalls";
    assert r[..|servicePath|] == servicePath;
    r
  }

  /** What the comment above lines 48-51 asks for: the value ends with `/`,
      one being appended only when it is missing. */
  function EnsureTrailingSlash(u: string): (r: string)
    ensures EndsWith(r, "/")
    ensures EndsWith(u, "/") ==> r == u
    ensures !EndsWith(u, "/") ==> r == u + "/"
  {
    if EndsWith(u, "/") then u else u + "/"
  }

  /** Ensuring the trailing slash is idempotent on every input. */
  lemma EnsureTrailingSlashIdempotent(u: string)
    ensures EnsureTrailingSlash(EnsureTrailingSlash(u)) == EnsureTrailingSlash(u)
  {
  }

  /** The phone-call collection path from a normalised service path: always
      the service path followed by exactly one `/` before `phoneCalls`. */
  function PhoneCallPath(servicePath: string): (r: string)
    ensures EndsWith(r, "/phoneCalls")
    ensures StartsWith(r, servicePath)
    ensures |r| - |servicePath| == (if EndsWith(servicePath, "/") then 10 else 11)
  {
    var r := EnsureTrailingSlash(servicePath) + "phoneCalls";
    assert r[..|servicePath|] == servicePath;
    assert r[|r| - 11..] == "/phoneCalls";
    r
  }
}
