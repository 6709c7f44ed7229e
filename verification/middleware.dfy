/** The request middleware of middleware.ts as a decision over the request
    path and the outcome of the authentication lookup: skip static paths,
    let API routes through, and redirect between the public pages and the
    rest according to whether a user is signed in. */
module Middleware {
  import opened Common

  /** Path prefixes the middleware never inspects. */
  const StaticPaths: seq<string> :=
    ["/_next/", "/assets/", "/favicon.ico", "/api/auth/", "/auth/callback", "/block-metadata-init", "/block", "/avatars/"]

  /** The value of both cache headers the middleware adds. */
  const MiddlewareCache := "private, max-age=15"

  type Headers = map<string, string>

  /** `addCacheControlHeaders`: sets Cache-Control and CDN-Cache-Control,
      keeping every other header. */
  function AddCacheControlHeaders(h: Headers): (r: Headers)
    ensures r.Keys == h.Keys + {"Cache-Control", "CDN-Cache-Control"}
    ensures r["Cache-Control"] == MiddlewareCache && r["CDN-Cache-Control"] == MiddlewareCache
    ensures forall k :: k in h && k != "Cache-Control" && k != "CDN-Cache-Control" ==> r[k] == h[k]
  {
    h["Cache-Control" := MiddlewareCache]["CDN-Cache-Control" := MiddlewareCache]
  }

  /** The headers of a fresh response with only the two cache headers. */
  const CacheHeaders: Headers := AddCacheControlHeaders(map[])

  /** Continue to the route, or redirect to `path` with an optional
      `redirect` query parameter. `headers` are the middleware response's
      own headers (a redirect's `Location` is `path` and `redirectParam`).
      A `Next` that forwards the request headers is
      `NextResponse.next({ request: { headers } })`; one that does not is
      the bare `NextResponse.next()`. */
  datatype Decision =
    | Next(forwardsRequestHeaders: bool, headers: Headers)
    | Redirect(path: string, redirectParam: Option<string>, headers: Headers)

  /** How the authentication step ends: a signed-in user, no user, an
      error reply (which counts as no user), or a thrown error (as does a
      failing client construction). */
  datatype AuthOutcome = SignedIn | NoUser | AuthErrorReply | AuthThrew

  predicate IsStatic(path: string) {
    exists i :: 0 <= i < |StaticPaths| && StartsWith(path, StaticPaths[i])
  }

  /** The pages a signed-out user may see. */
  predicate IsPublicRoute(path: string) {
    path == "/login" || path == "/register" || StartsWith(path, "/auth/")
  }

  /** `middleware`. The API-route test comes before the user lookup, so
      `auth` is consulted only for pages; `clientFails` is a failing
      construction of the authentication client. */
  function Route(path: string, clientFails: bool, auth: AuthOutcome): (d: Decision)
    // a static path and a thrown error answer the bare `next()`, with no header
    ensures IsStatic(path) ==> d == Next(false, map[])
    ensures !IsStatic(path) && clientFails ==> d == Next(false, map[])
    ensures !IsStatic(path) && !clientFails && !StartsWith(path, "/api/") && auth == AuthThrew ==> d == Next(false, map[])
    ensures !IsStatic(path) && !clientFails && StartsWith(path, "/api/") ==> d == Next(true, CacheHeaders)
    // a redirect happens only for a page, only after the lookup answered
    ensures d.Redirect? ==> !IsStatic(path) && !clientFails && !StartsWith(path, "/api/") && auth != AuthThrew
    ensures d.Redirect? && d.path == "/" <==>
      !IsStatic(path) && !clientFails && !StartsWith(path, "/api/") && auth == SignedIn && IsPublicRoute(path)
    ensures d.Redirect? && d.path == "/login" <==>
      && !IsStatic(path) && !clientFails && !StartsWith(path, "/api/")
      && (auth == NoUser || auth == AuthErrorReply) && !IsPublicRoute(path)
    ensures d.Redirect? && d.path == "/login" ==> (d.redirectParam.Some? <==> path != "/")
    ensures d.Redirect? && d.redirectParam.Some? ==> d.redirectParam.value == path
    ensures d.Redirect? ==> d.path == "/" || d.path == "/login"
    ensures d.Redirect? && d.path == "/" ==> d.redirectParam.None?
    // a redirect is a fresh response carrying exactly the two cache headers
    ensures d.Redirect? ==> d.headers == CacheHeaders && d.headers.Keys == {"Cache-Control", "CDN-Cache-Control"}
    // every other answer after the lookup forwards the request with the cache headers
    ensures !IsStatic(path) && !clientFails && !StartsWith(path, "/api/") && auth != AuthThrew && d.Next? ==>
      d == Next(true, CacheHeaders)
  {
    if IsStatic(path) then Next(false, map[])
    else if clientFails then Next(false, map[])
    else if StartsWith(path, "/api/") then Next(true, CacheHeaders)
    else
      match auth
      case AuthThrew => Next(false, map[])
      case _ =>
        var loggedIn := auth == SignedIn;
        var isPublic := IsPublicRoute(path);
        if loggedIn && isPublic then Redirect("/", None, CacheHeaders)
        else if !loggedIn && !isPublic then
          Redirect("/login", if path != "/" then Some(path) else None, CacheHeaders)
        else Next(true, CacheHeaders)
  }

  /** Two strings whose second characters differ are not prefixes of one
      another. */
  lemma SecondCharDiffers(s: string, p: string)
    requires |s| >= 2 && |p| >= 2 && s[1] != p[1]
    ensures !StartsWith(s, p)
  {
    if |p| <= |s| {
      assert s[..|p|][1] != p[1];
    }
  }

  /** Following a redirect lands on a page the same user may stay on: the
      home page for a signed-in user and the login page for a signed-out
      one, neither of which redirects again. */
  lemma RedirectsSettle(path: string, auth: AuthOutcome)
    requires auth != AuthThrew
    requires Route(path, false, auth).Redirect?
    ensures var d := Route(path, false, auth);
            !Route(d.path, false, auth).Redirect?
  {
    var d := Route(path, false, auth);
    if d.path == "/" {
      assert !StartsWith("/", "/auth/");
      assert !IsStatic("/") by {
        forall i | 0 <= i < |StaticPaths| ensures !StartsWith("/", StaticPaths[i]) { }
      }
      assert !StartsWith("/", "/api/");
    } else {
      assert !IsStatic("/login") by {
        forall i | 0 <= i < |StaticPaths| ensures !StartsWith("/login", StaticPaths[i]) {
          SecondCharDiffers("/login", StaticPaths[i]);
        }
      }
      SecondCharDiffers("/login", "/api/");
    }
  }
}
