/**
 * The route guard (middleware.ts): requests under /dashboard and /profile
 * go through only when the `accessToken` cookie exists and the backend's
 * `/api/auth/verify` answers exactly 200 for it; otherwise they are
 * redirected to /login.
 *
 * The call to the backend (`http://localhost:3001/api/auth/verify`) is the
 * parameter `verify`, from the Cookie header sent to what came back.
 */
module Middleware {
  import opened JsValues

  datatype Decision = Next | Redirect(path: string)

  /** What `fetch` of the verify endpoint gave: a throw, or a response status. */
  datatype VerifyCall = CallThrew | Answered(status: int)

  const LoginPath := "/login"

  /** The Cookie header forwarded to the backend. */
  function CookieHeader(token: string): (h: string)
    ensures |h| == |"accessToken="| + |token|
    ensures h[..|"accessToken="|] == "accessToken=" && h[|"accessToken="|..] == token
  {
    "accessToken=" + token
  }

  /**
   * The guard. A missing cookie redirects without calling the backend; a
   * present cookie (even an empty one) is forwarded, and the request goes
   * through exactly when the answer is 200; any other status, or a throw,
   * redirects to /login.
   */
  function Guard(cookie: Option<string>, verify: string -> VerifyCall): (d: Decision)
    ensures d.Next? <==> cookie.Some? && verify(CookieHeader(cookie.value)) == Answered(200)
    ensures d.Redirect? ==> d.path == LoginPath
  {
    if cookie.None? then Redirect(LoginPath)
    else match verify(CookieHeader(cookie.value))
      case CallThrew => Redirect(LoginPath)
      case Answered(status) => if status != 200 then Redirect(LoginPath) else Next
  }

  /** Without a cookie the backend is not consulted. */
  lemma NoCookieNoCall(verify1: string -> VerifyCall, verify2: string -> VerifyCall)
    ensures Guard(None, verify1) == Guard(None, verify2) == Redirect(LoginPath)
  {
  }

  /** The guard depends on the backend only through the one header it sends. */
  lemma GuardAsksOnce(token: string, verify1: string -> VerifyCall, verify2: string -> VerifyCall)
    requires verify1(CookieHeader(token)) == verify2(CookieHeader(token))
    ensures Guard(Some(token), verify1) == Guard(Some(token), verify2)
  {
  }

  /** `base/:path*`: the base itself, or anything under `base/`. */
  predicate UnderBase(path: string, base: string)
    ensures UnderBase(path, base) ==> |path| >= |base| && path[..|base|] == base
    ensures UnderBase(path, base) && |path| > |base| ==> path[|base|] == '/'
  {
    path == base || (|path| > |base| && path[..|base| + 1] == base + "/")
  }

  /** The `matcher` of the config: the guarded paths. */
  predicate Matches(path: string)
    ensures Matches(path) ==>
      || (|path| >= |"/dashboard"| && path[..|"/dashboard"|] == "/dashboard")
      || (|path| >= |"/profile"| && path[..|"/profile"|] == "/profile")
  {
    UnderBase(path, "/dashboard") || UnderBase(path, "/profile")
  }

  /** Which paths are guarded: the bases and what lies under them, and not mere prefixes. */
  lemma MatcherScope(rest: string)
    ensures Matches("/dashboard") && Matches("/profile")
    ensures Matches("/dashboard/" + rest) && Matches("/profile/" + rest)
    ensures !Matches("/dashboards") && !Matches("/profiles") && !Matches(LoginPath) && !Matches("/")
  {
    assert ("/dashboard/" + rest)[..|"/dashboard"| + 1] == "/dashboard/";
    assert ("/profile/" + rest)[..|"/profile"| + 1] == "/profile/";
    assert "/dashboards"[..11][10] == 's' && "/dashboard/"[10] == '/';
    assert "/profiles"[..9][8] == 's' && "/profile/"[8] == '/';
  }

  /** A request: guarded paths go through `Guard`, all others pass untouched. */
  function Handle(path: string, cookie: Option<string>, verify: string -> VerifyCall): (d: Decision)
    ensures !Matches(path) ==> d == Next
    ensures Matches(path) ==> d == Guard(cookie, verify)
    ensures d.Redirect? ==> Matches(path) && d.path == LoginPath
  {
    if Matches(path) then Guard(cookie, verify) else Next
  }
}
