/**
 * The two URL questions the extension asks: does a string pass the
 * `/^https?:\/\//i` test, and what is `new URL(s).hostname`.
 * Host extraction is a simplified URL parser: it finds the scheme, takes
 * the authority after it, drops user information and port, and lower-cases
 * ASCII letters. "No domain" (the constructor throwing) is `None`.
 */
module Url {
  import opened Common
  import Strings

  /** s starts with the lower-case ASCII text p, ignoring ASCII case. */
  predicate HasPrefixIgnoringCase(s: string, p: string) {
    |p| <= |s| && Strings.Lower(s[..|p|]) == p
  }

  /** The test `/^https?:\/\//i.test(s)` of background.js and popup.js. */
  predicate IsHttpUrl(s: string) {
    HasPrefixIgnoringCase(s, "http://") || HasPrefixIgnoringCase(s, "https://")
  }

  predicate IsAsciiLetter(c: char) { ('a' <= c <= 'z') || ('A' <= c <= 'Z') }

  predicate IsSchemeChar(c: char) {
    IsAsciiLetter(c) || ('0' <= c <= '9') || c == '+' || c == '-' || c == '.'
  }

  /** Length of the run of scheme characters at the start of s. */
  function SchemeRun(s: string): (n: nat)
    ensures n <= |s|
    ensures forall k :: 0 <= k < n ==> IsSchemeChar(s[k])
    ensures n < |s| ==> !IsSchemeChar(s[n])
  {
    if s == [] || !IsSchemeChar(s[0]) then 0 else 1 + SchemeRun(s[1..])
  }

  /** The index of the ':' that ends the scheme, if s starts with one. */
  function SchemeEnd(s: string): (r: Option<nat>)
    ensures r.Some? ==> 0 < r.value < |s| && s[r.value] == ':'
  {
    if s == [] || !IsAsciiLetter(s[0]) then None
    else
      var n := SchemeRun(s);
      if n < |s| && s[n] == ':' then Some(n) else None
  }

  predicate IsAuthorityEnd(c: char) { c == '/' || c == '\\' || c == '?' || c == '#' }

  /** Length of the authority at the start of s. */
  function AuthorityLength(s: string): (n: nat)
    ensures n <= |s|
    ensures forall k :: 0 <= k < n ==> !IsAuthorityEnd(s[k])
    ensures n < |s| ==> IsAuthorityEnd(s[n])
  {
    if s == [] || IsAuthorityEnd(s[0]) then 0 else 1 + AuthorityLength(s[1..])
  }

  /** Number of leading slashes (either direction), which special schemes skip. */
  function LeadingSlashes(s: string): (n: nat)
    ensures n <= |s|
  {
    if s != [] && (s[0] == '/' || s[0] == '\\') then 1 + LeadingSlashes(s[1..]) else 0
  }

  /** The part of a after the last c, or all of a. */
  function AfterLast(a: string, c: char): (r: string)
    ensures |r| <= |a|
    ensures c !in r
  {
    if a == [] then []
    else if a[|a| - 1] == c then []
    else AfterLast(a[..|a| - 1], c) + [a[|a| - 1]]
  }

  /** The part of a before the first c, or all of a. */
  function BeforeFirst(a: string, c: char): (r: string)
    ensures |r| <= |a|
    ensures c !in r
  {
    if a == [] || a[0] == c then [] else [a[0]] + BeforeFirst(a[1..], c)
  }

  /** The host of an authority: user information and port dropped, lower-cased. */
  function HostOfAuthority(authority: string): string {
    Strings.Lower(BeforeFirst(AfterLast(authority, '@'), ':'))
  }

  /** `new URL(url).hostname`, or None where the constructor throws. */
  function HostOf(url: string): (r: Option<string>)
  {
    match SchemeEnd(url)
    case None => None
    case Some(i) =>
      var scheme := Strings.Lower(url[..i]);
      var rest := url[i + 1..];
      if scheme == "http" || scheme == "https" then
        var afterSlashes := rest[LeadingSlashes(rest)..];
        var host := HostOfAuthority(afterSlashes[..AuthorityLength(afterSlashes)]);
        if host == "" then None else Some(host)
      else if |rest| >= 2 && rest[..2] == "//" then
        Some(HostOfAuthority(rest[2..][..AuthorityLength(rest[2..])]))
      else
        Some("")
  }

  /** A string without a scheme (a relative reference) has no host. */
  lemma NoSchemeNoHost(url: string)
    requires ':' !in url
    ensures HostOf(url) == None
  {
  }

  predicate IsPlainHostChar(c: char) {
    !IsAuthorityEnd(c) && c != '@' && c != ':'
  }

  lemma {:induction false} AuthorityOfPlainHost(h: string, path: string)
    requires forall k :: 0 <= k < |h| ==> IsPlainHostChar(h[k])
    requires path == [] || IsAuthorityEnd(path[0])
    ensures AuthorityLength(h + path) == |h|
    decreases |h|
  {
    if h != [] {
      AuthorityOfPlainHost(h[1..], path);
      assert (h + path)[1..] == h[1..] + path;
    }
  }

  lemma {:induction false} AfterLastAbsent(a: string, c: char)
    requires c !in a
    ensures AfterLast(a, c) == a
    decreases |a|
  {
    if a != [] {
      AfterLastAbsent(a[..|a| - 1], c);
      assert a == a[..|a| - 1] + [a[|a| - 1]];
    }
  }

  lemma {:induction false} BeforeFirstAbsent(a: string, c: char)
    requires c !in a
    ensures BeforeFirst(a, c) == a
    decreases |a|
  {
    if a != [] {
      BeforeFirstAbsent(a[1..], c);
      assert a == [a[0]] + a[1..];
    }
  }

  lemma {:induction false} SchemeRunExact(s: string, n: nat)
    requires n < |s| && !IsSchemeChar(s[n])
    requires forall k :: 0 <= k < n ==> IsSchemeChar(s[k])
    ensures SchemeRun(s) == n
    decreases n
  {
    if n > 0 {
      SchemeRunExact(s[1..], n - 1);
    }
  }

  lemma SchemeOfPrefix(url: string, p: string)
    requires p == "http://" || p == "https://"
    requires HasPrefixIgnoringCase(url, p)
    ensures SchemeEnd(url) == Some(|p| - 3)
    ensures Strings.Lower(url[..|p| - 3]) == p[..|p| - 3]
  {
    var i := |p| - 3;
    forall k | 0 <= k <= i
      ensures Strings.LowerChar(url[k]) == p[k]
    {
      assert Strings.Lower(url[..|p|])[k] == Strings.LowerChar(url[k]);
    }
    assert forall k :: 0 <= k < i ==> IsSchemeChar(url[k]);
    SchemeRunExact(url, i);
  }

  /** A string passing the http(s) test has the scheme "http" or "https", in any case. */
  lemma HttpScheme(url: string) returns (i: nat)
    requires IsHttpUrl(url)
    ensures SchemeEnd(url) == Some(i)
    ensures Strings.Lower(url[..i]) == "http" || Strings.Lower(url[..i]) == "https"
  {
    var p := if HasPrefixIgnoringCase(url, "http://") then "http://" else "https://";
    SchemeOfPrefix(url, p);
    i := |p| - 3;
  }

  /** A URL that passes the http(s) test never yields the empty host. */
  lemma HttpHostNonEmpty(url: string)
    requires IsHttpUrl(url)
    ensures HostOf(url).Some? ==> HostOf(url).value != ""
  {
    var _ := HttpScheme(url);
  }

  lemma HostAfterHttpScheme(url: string, i: nat, h: string, path: string)
    requires SchemeEnd(url) == Some(i)
    requires Strings.Lower(url[..i]) == "http" || Strings.Lower(url[..i]) == "https"
    requires url[i + 1..] == "//" + (h + path)
    requires h != [] && forall k :: 0 <= k < |h| ==> IsPlainHostChar(h[k])
    requires path == [] || IsAuthorityEnd(path[0])
    ensures HostOf(url) == Some(Strings.Lower(h))
  {
    var rest := url[i + 1..];
    assert LeadingSlashes(rest) == 2 by {
      assert rest[2..] == h + path;
      assert rest[2] == h[0];
      assert LeadingSlashes(rest[2..]) == 0;
    }
    var after := rest[2..];
    assert after == h + path;
    AuthorityOfPlainHost(h, path);
    assert after[..AuthorityLength(after)] == h;
    AfterLastAbsent(h, '@');
    BeforeFirstAbsent(h, ':');
  }

  /**
   * For "http://" or "https://" followed by a plain host name and a path,
   * the extracted domain is exactly the host, lower-cased.
   */
  lemma HostOfHttpUrl(scheme: string, h: string, path: string)
    requires scheme == "http://" || scheme == "https://"
    requires h != [] && forall k :: 0 <= k < |h| ==> IsPlainHostChar(h[k])
    requires path == [] || IsAuthorityEnd(path[0])
    ensures HostOf(scheme + h + path) == Some(Strings.Lower(h))
  {
    var url := scheme + (h + path);
    assert url == scheme + h + path;
    var i := |scheme| - 3;
    assert url[..|scheme|] == scheme;
    assert Strings.Lower(scheme) == scheme;
    SchemeOfPrefix(url, scheme);
    assert url[i + 1..] == scheme[i + 1..] + (h + path);
    assert scheme[i + 1..] == "//";
    HostAfterHttpScheme(url, i, h, path);
  }
}
