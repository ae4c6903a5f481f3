/** The request gate in front of every page and API route: outside
    development, a request passes when its path starts with a public prefix
    or a static-file prefix, or when it carries a non-empty session cookie;
    any other request is redirected to `/login`. The cookie is only looked
    at, not verified. */
module Proxy {
  import opened Common

  /** Paths reachable without signing in, matched as prefixes. */
  const PublicPaths: seq<string> := ["/login", "/register", "/api/auth/", "/api/health", "/api/cron/"]

  const SessionCookie: string := "safam-session"

  /** What the gate sees of a request: `NODE_ENV`, the URL's path and the
      request's cookies by name. */
  datatype Request = Request(nodeEnv: Option<string>, pathname: string, cookies: map<string, string>)

  datatype Decision = Next | RedirectToLogin

  /** `PUBLIC_PATHS.some((p) => pathname.startsWith(p))`. */
  predicate IsPublic(pathname: string) {
    exists i :: 0 <= i < |PublicPaths| && StartsWith(pathname, PublicPaths[i])
  }

  /** Next.js internals and the favicon. */
  predicate IsStatic(pathname: string) {
    StartsWith(pathname, "/_next") || StartsWith(pathname, "/favicon")
  }

  /** The session cookie is present with a non-empty value. */
  predicate HasSessionCookie(cookies: map<string, string>) {
    SessionCookie in cookies && cookies[SessionCookie] != ""
  }

  /** `proxy`: the tests in the order the source makes them. */
  function Gate(request: Request): (d: Decision)
    ensures d == RedirectToLogin ==> !HasSessionCookie(request.cookies)
    ensures d == RedirectToLogin ==> request.nodeEnv != Some("development")
    ensures IsPublic(request.pathname) || IsStatic(request.pathname) ==> d == Next
    ensures d == RedirectToLogin <==>
      request.nodeEnv != Some("development") && !IsPublic(request.pathname) && !IsStatic(request.pathname)
      && !HasSessionCookie(request.cookies)
  {
    if request.nodeEnv == Some("development") then Next
    else if IsPublic(request.pathname) || IsStatic(request.pathname) then Next
    else if !HasSessionCookie(request.cookies) then RedirectToLogin
    else Next
  }

  /** Every path under a public prefix passes, with or without a cookie. */
  lemma PublicPrefixPasses(i: int, rest: string, nodeEnv: Option<string>, cookies: map<string, string>)
    requires 0 <= i < |PublicPaths|
    ensures Gate(Request(nodeEnv, PublicPaths[i] + rest, cookies)) == Next
  {
    assert StartsWith(PublicPaths[i] + rest, PublicPaths[i]);
  }

  /** Next.js internals and the favicon pass, with or without a cookie. */
  lemma StaticPrefixPasses(rest: string, nodeEnv: Option<string>, cookies: map<string, string>)
    ensures Gate(Request(nodeEnv, "/_next" + rest, cookies)) == Next
    ensures Gate(Request(nodeEnv, "/favicon" + rest, cookies)) == Next
  {
    assert StartsWith("/_next" + rest, "/_next");
    assert StartsWith("/favicon" + rest, "/favicon");
  }

  /** Adding a session cookie never turns a passing request away, and a
      request with one always passes. */
  lemma CookieAdmits(nodeEnv: Option<string>, pathname: string, cookies: map<string, string>, value: string)
    requires value != ""
    ensures Gate(Request(nodeEnv, pathname, cookies[SessionCookie := value])) == Next
  {
  }

  /** Matching is by prefix only: `/loginx` is public, while `/api/auth`
      without its trailing slash is not, so without a cookie it is
      redirected. */
  lemma PrefixOnly()
    ensures Gate(Request(None, "/loginx", map[])) == Next
    ensures Gate(Request(None, "/api/auth", map[])) == RedirectToLogin
  {
    assert StartsWith("/loginx", PublicPaths[0]);
    var path := "/api/auth";
    forall i | 0 <= i < |PublicPaths|
      ensures !StartsWith(path, PublicPaths[i])
    {
      if i == 2 || i == 4 {
        assert |PublicPaths[i]| > |path|;
      } else {
        assert PublicPaths[i][1] != path[1] || PublicPaths[i][5] != path[5];
      }
    }
  }
}
