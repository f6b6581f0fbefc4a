/** The request middleware: the decision, for each request, to let it through or to
    redirect it, from whether the request carries a session token, its path and whether the
    server runs in development mode. */
module Middleware {
  import opened Util

  /** The path prefixes reachable without signing in. */
  const PublicRoutes: seq<string> := ["/login", "/signup", "/forgot-password", "/api/auth"]

  /** The file extensions served as static files. */
  const StaticExtensions: seq<string> :=
    ["js", "css", "png", "jpg", "jpeg", "gif", "webp", "svg", "ico", "ttf", "woff", "woff2"]

  const LoginPage: string := "/login"
  const HomePage: string := "/"
  const AuthApi: string := "/api/auth"

  /** What the middleware answers: pass the request on, or redirect it to `target`, with the
      path first asked for as the `callbackUrl` query parameter when there is one. */
  datatype Decision = Next | Redirect(target: string, callbackUrl: Option<string>)

  /** The path starts with one of the public prefixes (a bare prefix test, so "/login-x" and
      "/api/authority" count too). */
  predicate IsPublicRoute(path: string) {
    exists i :: 0 <= i < |PublicRoutes| && StartsWith(path, PublicRoutes[i])
  }

  /** The path ends in a dot followed by one of the static extensions, letter case
      included. */
  predicate IsStaticFile(path: string) {
    exists i :: 0 <= i < |StaticExtensions| && EndsWith(path, "." + StaticExtensions[i])
  }

  /** `middleware`. */
  function Decide(hasToken: bool, path: string, development: bool): (d: Decision)
    ensures development ==> d == Next
    ensures d.Redirect? ==> !development && (hasToken <==> !d.callbackUrl.Some?)
    ensures d == Redirect(LoginPage, Some(path)) <==>
      !development && !hasToken && !IsPublicRoute(path) && !IsStaticFile(path)
    ensures d == Redirect(HomePage, None) <==>
      !development && hasToken && IsPublicRoute(path) && !StartsWith(path, AuthApi)
    ensures d.Redirect? ==> d == Redirect(LoginPage, Some(path)) || d == Redirect(HomePage, None)
  {
    if development then Next
    else if !hasToken && !IsPublicRoute(path) && !IsStaticFile(path) then Redirect(LoginPage, Some(path))
    else if hasToken && IsPublicRoute(path) && !StartsWith(path, AuthApi) then Redirect(HomePage, None)
    else Next
  }

  /** A signed-out visitor is only ever sent to the login page, and only from a protected
      path; a public path or a static file always goes through. */
  lemma SignedOutReachesOnlyPublic(path: string)
    ensures Decide(false, path, false) != Next <==> !IsPublicRoute(path) && !IsStaticFile(path)
    ensures IsPublicRoute(path) || IsStaticFile(path) ==> Decide(false, path, false) == Next
  {
  }

  /** The authentication endpoints always go through, signed in or not. */
  lemma AuthApiAlwaysPasses(hasToken: bool, path: string, development: bool)
    requires StartsWith(path, AuthApi)
    ensures Decide(hasToken, path, development) == Next
  {
    assert StartsWith(path, PublicRoutes[3]);
  }

  /** A redirect never leads to another one: the login page lets a signed-out visitor
      through, and the home page lets a signed-in member through. */
  lemma RedirectsSettle(hasToken: bool, path: string)
    ensures var d := Decide(hasToken, path, false);
      d.Redirect? ==> Decide(hasToken, d.target, false) == Next
  {
    if !hasToken {
      assert StartsWith(LoginPage, PublicRoutes[0]);
    } else {
      forall i | 0 <= i < |PublicRoutes|
        ensures !StartsWith(HomePage, PublicRoutes[i])
      {
        assert |HomePage| < |PublicRoutes[i]|;
      }
    }
  }

  /** The prefix test is not a segment test: "/login-help" is public, so a signed-in member is
      sent home from it, and "/api/authority" passes without a token. */
  lemma PrefixNotSegment()
    ensures IsPublicRoute("/login-help")
    ensures Decide(true, "/login-help", false) == Redirect(HomePage, None)
    ensures Decide(false, "/api/authority", false) == Next
  {
    assert StartsWith("/login-help", PublicRoutes[0]);
    assert !StartsWith("/login-help", AuthApi) by { assert "/login-help"[1] == 'l'; }
    assert StartsWith("/api/authority", PublicRoutes[3]);
  }

  /** Every static extension ends in a lower-case letter or a digit. */
  lemma ExtensionsEndLowerCase()
    ensures forall i :: 0 <= i < |StaticExtensions| ==>
      var e := StaticExtensions[i];
      e != [] && ('a' <= e[|e| - 1] <= 'z' || '0' <= e[|e| - 1] <= '9')
  {
  }

  /** A path ending in an upper-case letter is never a static file, whatever its
      extension spells. */
  lemma UpperCaseEndNotStatic(path: string)
    requires path != [] && 'A' <= path[|path| - 1] <= 'Z'
    ensures !IsStaticFile(path)
  {
    ExtensionsEndLowerCase();
    forall i | 0 <= i < |StaticExtensions|
      ensures !EndsWith(path, "." + StaticExtensions[i])
    {
      var e := StaticExtensions[i];
      var q := "." + e;
      assert q[|q| - 1] == e[|e| - 1];
      if |q| <= |path| {
        assert path[|path| - |q|..][|q| - 1] == path[|path| - 1];
      }
    }
  }

  /** The extension test is case-sensitive: "/logo.png" is static, "/logo.PNG" is not, so a
      signed-out visitor asking for the latter is sent to the login page. */
  lemma StaticIsCaseSensitive()
    ensures IsStaticFile("/logo.png")
    ensures !IsStaticFile("/logo.PNG")
    ensures Decide(false, "/logo.PNG", false) == Redirect(LoginPage, Some("/logo.PNG"))
  {
    var p := "/logo.PNG";
    assert EndsWith("/logo.png", "." + StaticExtensions[2]);
    UpperCaseEndNotStatic(p);
    assert !IsPublicRoute(p) by {
      assert !StartsWith(p, PublicRoutes[0]) by { assert p[4] == 'o'; }
      assert !StartsWith(p, PublicRoutes[1]) by { assert p[1] == 'l'; }
      assert !StartsWith(p, PublicRoutes[2]) by { assert p[1] == 'l'; }
      assert !StartsWith(p, PublicRoutes[3]) by { assert p[1] == 'l'; }
    }
  }
}
