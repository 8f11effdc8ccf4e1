/** The edge middleware's redirect decision for one request: the `token`
    cookie (absent or "" counts as no token) and the request's path. */
module Middleware {
  import opened Common
  import opened ZodRules

  const ProtectedRoutes: seq<string> := [
    "/", "/dashboard", "/profile", "/employees", "/managers",
    "/suppliers", "/today-special", "/orders", "/complaints"]

  const AuthRoutes: seq<string> := ["/signin", "/signup", "/forgot-password"]

  datatype Decision = RedirectToSignin(callbackUrl: string) | RedirectToAdmin | Next

  predicate HasToken(token: Option<string>) {
    token.Some? && token.value != ""
  }

  /** `protectedRoutes.some(route => pathname.startsWith(route))`. */
  predicate IsProtected(path: string) {
    exists i :: 0 <= i < |ProtectedRoutes| && StartsWith(path, ProtectedRoutes[i])
  }

  /** The decision as the middleware makes it: a sign-in redirect happens only
      without a token and always carries the requested path back, and "/admin"
      is reached only with a token and only from an auth page. */
  function Decide(token: Option<string>, path: string): (r: Decision)
    ensures r.RedirectToSignin? ==> !HasToken(token) && r.callbackUrl == path
    ensures r.RedirectToAdmin? ==> HasToken(token) && path in AuthRoutes
    ensures r.Next? ==> (HasToken(token) ==> path !in AuthRoutes) && (!HasToken(token) ==> !IsProtected(path))
  {
    if IsProtected(path) && !HasToken(token) then RedirectToSignin(path)
    else if path in AuthRoutes && HasToken(token) then RedirectToAdmin
    else Next
  }

  /** Since "/" is a listed route and matching is by prefix, a path is
      protected exactly when it starts with '/'. */
  lemma {:induction false} ProtectedIffLeadingSlash(path: string)
    ensures IsProtected(path) <==> |path| > 0 && path[0] == '/'
  {
    if |path| > 0 && path[0] == '/' {
      assert StartsWith(path, ProtectedRoutes[0]);
    }
    if IsProtected(path) {
      var i :| 0 <= i < |ProtectedRoutes| && StartsWith(path, ProtectedRoutes[i]);
      assert ProtectedRoutes[i][0] == '/';
      assert path[0] == ProtectedRoutes[i][0];
    }
  }

  /** Without a token every path beginning with '/' is sent to sign-in, with
      the path as `callbackUrl`. */
  lemma NoTokenRedirects(token: Option<string>, path: string)
    requires !HasToken(token) && |path| > 0 && path[0] == '/'
    ensures Decide(token, path) == RedirectToSignin(path)
  {
    ProtectedIffLeadingSlash(path);
  }

  /** With a token, exactly the three auth pages go to "/admin" and every other
      path passes: auth pages are matched by equality, not by prefix. */
  lemma WithTokenDecision(token: Option<string>, path: string)
    requires HasToken(token)
    ensures Decide(token, path) == RedirectToAdmin <==> path in AuthRoutes
    ensures Decide(token, path) == Next <==> path !in AuthRoutes
  {
  }

  lemma AuthRoutesMatchExactly()
    ensures Decide(Some("t"), "/signin/help") == Next
    ensures Decide(Some("t"), "/signin") == RedirectToAdmin
    ensures Decide(None, "/dashboard/x") == RedirectToSignin("/dashboard/x")
  {
    ProtectedIffLeadingSlash("/dashboard/x");
    assert "/signin/help" !in AuthRoutes;
  }

  /** The sign-in page itself is protected: without a token a request for
      "/signin" is redirected to "/signin", whose request is redirected again. */
  lemma SigninRedirectsToItself()
    ensures Decide(None, "/signin") == RedirectToSignin("/signin")
    ensures Decide(Some(""), "/signin") == RedirectToSignin("/signin")
  {
    ProtectedIffLeadingSlash("/signin");
  }

  /** The evidently intended protection: "/" guards the home page only, the
      other routes guard their whole sub-tree. */
  predicate IsProtectedIntended(path: string) {
    path == "/" || exists i :: 1 <= i < |ProtectedRoutes| && StartsWith(path, ProtectedRoutes[i])
  }

  function DecideIntended(token: Option<string>, path: string): Decision {
    if IsProtectedIntended(path) && !HasToken(token) then RedirectToSignin(path)
    else if path in AuthRoutes && HasToken(token) then RedirectToAdmin
    else Next
  }

  /** With the intended matching a visitor without a token reaches every auth
      page, while the listed sections and the home page stay guarded. */
  lemma IntendedAuthPagesReachable(token: Option<string>, path: string)
    requires !HasToken(token)
    ensures path in AuthRoutes ==> DecideIntended(token, path) == Next
    ensures path == "/" ==> DecideIntended(token, path) == RedirectToSignin(path)
    ensures StartsWith(path, "/orders") ==> DecideIntended(token, path) == RedirectToSignin(path)
  {
    if path in AuthRoutes {
      AuthRoutesOutsideSections(path);
    }
    if StartsWith(path, "/orders") {
      assert StartsWith(path, ProtectedRoutes[7]);
    }
  }

  /** No auth page lies under a listed section other than "/". */
  lemma AuthRoutesOutsideSections(path: string)
    requires path in AuthRoutes
    ensures forall i :: 1 <= i < |ProtectedRoutes| ==> !StartsWith(path, ProtectedRoutes[i])
  {
    forall i | 1 <= i < |ProtectedRoutes|
      ensures !StartsWith(path, ProtectedRoutes[i])
    {
      // every auth page differs from every section within its first three characters
      if path != "/forgot-password" && ProtectedRoutes[i] == "/suppliers" {
        DiffersAt(path, ProtectedRoutes[i], 2);
      } else {
        DiffersAt(path, ProtectedRoutes[i], 1);
      }
    }
  }

  lemma DiffersAt(path: string, route: string, k: nat)
    requires k < |route| && k < |path| && path[k] != route[k]
    ensures !StartsWith(path, route)
  {
    if |route| <= |path| {
      assert path[..|route|][k] != route[k];
    }
  }

  /** With a token both versions decide alike. */
  lemma IntendedAgreesWithToken(token: Option<string>, path: string)
    requires HasToken(token)
    ensures DecideIntended(token, path) == Decide(token, path)
  {
  }
}
