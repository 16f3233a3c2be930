/** The authentication redirect of every request: which paths are public and
    where a request is sent depending on the `access_token` cookie. */
module Middleware {
  import opened Wrappers

  datatype Decision = Redirect(target: string) | Next

  /** `path.startsWith(prefix)`. */
  predicate StartsWith(path: string, prefix: string) {
    |prefix| <= |path| && path[..|prefix|] == prefix
  }

  /** The prefixes under which every path is public. */
  const PublicPrefixes: seq<string> := ["/verify", "/auth/callback", "/_next", "/favicon.ico", "/api", "/images"]

  predicate IsPublic(path: string) {
    || path == "/"
    || path == "/signup"
    || StartsWith(path, "/verify")
    || StartsWith(path, "/auth/callback")
    || StartsWith(path, "/_next")
    || StartsWith(path, "/favicon.ico")
    || StartsWith(path, "/api")
    || StartsWith(path, "/images")
  }

  /** The `pathname` the middleware sees for an address the app navigates
      to: everything before the query string or the fragment. */
  function Pathname(url: string): (path: string)
    ensures |path| <= |url| && path == url[..|path|]
    ensures forall i :: 0 <= i < |path| ==> path[i] != '?' && path[i] != '#'
    ensures |path| < |url| ==> url[|path|] == '?' || url[|path|] == '#'
  {
    if url == [] || url[0] == '?' || url[0] == '#' then [] else [url[0]] + Pathname(url[1..])
  }

  /** The pathname of a path followed by a query string is that path. */
  lemma {:induction false} PathnameOfQuery(path: string, query: string)
    requires forall i :: 0 <= i < |path| ==> path[i] != '?' && path[i] != '#'
    ensures Pathname(path + "?" + query) == path
  {
    if path != [] {
      assert (path + "?" + query)[1..] == path[1..] + "?" + query;
      PathnameOfQuery(path[1..], query);
    }
  }

  /** A cookie value counts as a token when it is present and non-empty
      (`!token` is true for `undefined` and for ""). */
  predicate HasToken(token: Option<string>) {
    token.Some? && token.value != ""
  }

  /** The response of `middleware` for a request to `path`. */
  function Decide(token: Option<string>, path: string): (d: Decision)
    ensures d == Redirect("/") <==> !HasToken(token) && !IsPublic(path)
    ensures d == Redirect("/home") <==> HasToken(token) && path == "/"
    ensures d.Redirect? ==> d.target == "/" || d.target == "/home"
  {
    if !HasToken(token) && !IsPublic(path) then Redirect("/")
    else if HasToken(token) && path == "/" then Redirect("/home")
    else Next
  }

  /** The public paths are exactly the two exact matches and the prefixes. */
  lemma IsPublicIff(path: string)
    ensures IsPublic(path) <==>
      path == "/" || path == "/signup" ||
      exists i :: 0 <= i < |PublicPrefixes| && StartsWith(path, PublicPrefixes[i])
  {
    if IsPublic(path) && path != "/" && path != "/signup" {
      if StartsWith(path, "/verify") { assert StartsWith(path, PublicPrefixes[0]); }
      else if StartsWith(path, "/auth/callback") { assert StartsWith(path, PublicPrefixes[1]); }
      else if StartsWith(path, "/_next") { assert StartsWith(path, PublicPrefixes[2]); }
      else if StartsWith(path, "/favicon.ico") { assert StartsWith(path, PublicPrefixes[3]); }
      else if StartsWith(path, "/api") { assert StartsWith(path, PublicPrefixes[4]); }
      else { assert StartsWith(path, PublicPrefixes[5]); }
    }
  }

  /** A path whose second character starts none of the public prefixes is
      public only if it is one of the two exact matches. */
  lemma PrivateBySecondChar(path: string)
    requires |path| >= 2 && path[1] !in {'v', 'a', '_', 'f', 'i'}
    requires path != "/signup"
    ensures !IsPublic(path)
  {
    forall i | 0 <= i < |PublicPrefixes|
      ensures !StartsWith(path, PublicPrefixes[i])
    {
      var prefix := PublicPrefixes[i];
      assert |prefix| >= 2 && prefix[1] in {'v', 'a', '_', 'f', 'i'};
      assert |prefix| <= |path| ==> path[..|prefix|][1] == path[1];
    }
    IsPublicIff(path);
  }

  /** '/signup' is an exact match while '/verify' is a prefix. */
  lemma SignupExactVerifyPrefix()
    ensures !IsPublic("/signup/extra")
    ensures IsPublic("/verify") && IsPublic("/verify/resend")
    ensures !IsPublic("/home")
  {
    PrivateBySecondChar("/signup/extra");
    PrivateBySecondChar("/home");
    assert "/verify/resend"[..7] == "/verify";
  }

  /** A public path without a token and any path but '/' with a token pass through. */
  lemma PassThroughCases(token: Option<string>, path: string)
    ensures !HasToken(token) && IsPublic(path) ==> Decide(token, path) == Next
    ensures HasToken(token) && path != "/" ==> Decide(token, path) == Next
  {
  }

  /** No redirect loops: requesting the target of a redirect with the same
      cookie is let through. */
  lemma NoRedirectLoop(token: Option<string>, path: string)
    ensures Decide(token, path).Redirect? ==> Decide(token, Decide(token, path).target) == Next
  {
    PrivateBySecondChar("/home");
  }
}
