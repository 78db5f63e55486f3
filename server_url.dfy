/**
 * Normalisation of the Mattermost server setting into a base URL, and the two
 * endpoints built on it (ContentView.swift, getServerUrl / getStatusUrl, and the
 * login URL of LoginView.swift).  URLs are strings; `URL(string:)` and
 * `appendingPathComponent` become string concatenation.
 */
module Endpoints {
  import opened Wrappers

  const Scheme: string := "https://"
  const StatusPath: string := "api/v4/users/me/status"
  const LoginPath: string := "api/v4/users/login"

  /** Lower-case an ASCII letter; every other character is kept. */
  function LowerChar(c: char): (r: char)
    ensures !('A' <= r <= 'Z')
    ensures !('A' <= c <= 'Z') ==> r == c
  {
    if 'A' <= c <= 'Z' then (c as int + 32) as char else c
  }

  /** `String.lowercased()`, on ASCII letters. */
  function Lowercased(s: string): (r: string)
    ensures |r| == |s|
    ensures forall i :: 0 <= i < |s| ==> r[i] == LowerChar(s[i])
    ensures forall i :: 0 <= i < |r| ==> !('A' <= r[i] <= 'Z')
  {
    seq(|s|, i requires 0 <= i < |s| => LowerChar(s[i]))
  }

  /** Lower-casing twice is lower-casing once. */
  lemma LowercasedIdempotent(s: string)
    ensures Lowercased(Lowercased(s)) == Lowercased(s)
  {
  }

  predicate HasPrefix(s: string, p: string) {
    |p| <= |s| && s[..|p|] == p
  }

  predicate HasSuffix(s: string, q: string) {
    |q| <= |s| && s[|s| - |q|..] == q
  }

  /** The scheme test of getServerUrl: "https://" compared case-insensitively. */
  predicate HasHttpsPrefix(s: string) {
    HasPrefix(Lowercased(s), Scheme)
  }

  predicate EndsWithSlash(s: string) {
    HasSuffix(s, "/")
  }

  /**
   * What getServerUrl returns, stated as a shape: nothing for the empty
   * setting; otherwise the setting itself, preceded by "https://" unless it
   * already starts with it (in any case) and followed by "/" unless it
   * already ends with one.
   */
  function ServerUrl(s: string): (r: Option<string>)
    ensures r.None? <==> s == []
    ensures r.Some? ==> HasHttpsPrefix(r.value) && EndsWithSlash(r.value)
  {
    if s == [] then None
    else
      var scheme := if HasHttpsPrefix(s) then "" else Scheme;
      var slash := if EndsWithSlash(s) then "" else "/";
      HttpsPrefixAdded(s);
      Some(scheme + s + slash)
  }

  /** Prepending "https://" makes the scheme test succeed. */
  lemma HttpsPrefixAdded(s: string)
    ensures HasHttpsPrefix(Scheme + s)
  {
  }

  /** Whether a non-empty string ends in "/" does not depend on what precedes it. */
  lemma SlashUnaffectedByPrefix(p: string, s: string)
    requires s != []
    ensures EndsWithSlash(p + s) <==> EndsWithSlash(s)
  {
  }

  /** The scheme test reads only the first eight characters. */
  lemma HttpsPrefixByHead(s: string)
    ensures HasHttpsPrefix(s) <==> |s| >= |Scheme| && Lowercased(s[..|Scheme|]) == Scheme
  {
  }

  /** getServerUrl: the setting is copied into a local and adjusted step by step. */
  method GetServerUrl(urlString: string) returns (url: Option<string>)
    ensures url == ServerUrl(urlString)
  {
    if urlString == [] {
      return None;
    }
    var s := urlString;
    if !HasHttpsPrefix(s) {
      s := Scheme + s;
    }
    SlashUnaffectedByPrefix(s[..|s| - |urlString|], urlString);
    if !EndsWithSlash(s) {
      s := s + "/";
    }
    ghost var scheme := if HasHttpsPrefix(urlString) then "" else Scheme;
    ghost var slash := if EndsWithSlash(urlString) then "" else "/";
    assert s == scheme + urlString + slash;
    assert ServerUrl(urlString) == Some(scheme + urlString + slash);
    url := Some(s);
  }

  /** getStatusUrl: the base URL with the status endpoint appended. */
  function StatusUrl(s: string): (r: Option<string>)
    ensures r.None? <==> s == []
    ensures r.Some? ==> r.value == ServerUrl(s).value + StatusPath
  {
    match ServerUrl(s)
    case None => None
    case Some(base) => Some(base + StatusPath)
  }

  /** The login endpoint of getMattermostAuthToken, built the same way. */
  function LoginUrl(s: string): (r: Option<string>)
    ensures r.None? <==> s == []
    ensures r.Some? ==> r.value == ServerUrl(s).value + LoginPath
  {
    match ServerUrl(s)
    case None => None
    case Some(base) => Some(base + LoginPath)
  }

  /** Normalising a normalised URL changes nothing. */
  lemma ServerUrlIdempotent(s: string)
    requires s != []
    ensures ServerUrl(ServerUrl(s).value) == ServerUrl(s)
  {
    var u := ServerUrl(s).value;
    assert "" + u + "" == u;
  }

  /** The fixed points of the normalisation are exactly the non-empty strings
      that pass both tests. */
  lemma ServerUrlFixedPoints(s: string)
    ensures ServerUrl(s) == Some(s) <==> s != [] && HasHttpsPrefix(s) && EndsWithSlash(s)
  {
    assert "" + s + "" == s;
  }

  /** The input survives unchanged inside the result: the normalisation only
      ever adds a scheme in front and a slash at the end. */
  lemma ServerUrlKeepsInput(s: string)
    requires s != []
    ensures var u := ServerUrl(s).value;
      (HasHttpsPrefix(s) ==> HasPrefix(u, s)) &&
      (!HasHttpsPrefix(s) ==> HasPrefix(u, Scheme + s)) &&
      (EndsWithSlash(s) ==> HasSuffix(u, s)) &&
      (!EndsWithSlash(s) ==> HasSuffix(u, s + "/"))
  {
  }

  /** Only "https://" counts as a scheme: a setting written with "http://"
      gets "https://" in front of it all the same. */
  lemma HttpSettingGetsHttpsPrepended(h: string)
    ensures HasPrefix(ServerUrl("http://" + h).value, Scheme + "http://" + h)
  {
    var s := "http://" + h;
    HttpsPrefixByHead(s);
    if |s| >= |Scheme| {
      assert Lowercased(s[..|Scheme|])[4] == ':';
    }
    assert Scheme + s + "/" == Scheme + "http://" + h + "/";
  }

  /** The scheme test ignores letter case: an upper-case "HTTPS://" URL that
      already ends in "/" is kept as it is. */
  lemma UpperSchemeKept(h: string)
    ensures ServerUrl("HTTPS://" + h + "/") == Some("HTTPS://" + h + "/")
  {
    var s := "HTTPS://" + h + "/";
    assert Lowercased(s)[..|Scheme|] == Scheme;
    assert "" + s + "" == s;
  }

  /** The endpoint is joined to the base without a slash of its own: the
      only "/" between them is the one that ends the base. */
  lemma StatusUrlSingleJoin(s: string)
    requires s != []
    ensures var u := StatusUrl(s).value;
      var b := ServerUrl(s).value;
      HasSuffix(u, "/" + StatusPath) && u[|b| - 1] == '/' && u[|b|] != '/'
  {
  }

  /** A bare host ("chat.example.com") gets the scheme and the trailing
      slash, and the URL written out in full ("https://chat.example.com/")
      names the same endpoint. */
  lemma BareHostAndFullUrlAgree(h: string)
    requires h != [] && !HasHttpsPrefix(h) && !EndsWithSlash(h)
    ensures ServerUrl(h) == Some(Scheme + h + "/")
    ensures StatusUrl(Scheme + h + "/") == StatusUrl(h)
  {
    ServerUrlIdempotent(h);
  }
}
