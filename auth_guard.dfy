/** The client-side route guard: on each path change it reads the token,
    replaces the route when the visitor is on the wrong side of the public
    pages, and only then lets its children render. */
module AuthGuard {
  import LocalStorage

  const PublicRoutes: seq<string> := ["/signin", "/signup", "/forgot-password"]

  /** The `router.replace` targets one check issues, in order. */
  function Replacements(token: string, path: string): (r: seq<string>)
    ensures |r| <= 1
    ensures r == ["/signin"] <==> token == "" && path !in PublicRoutes
    ensures r == ["/"] <==> token != "" && path in PublicRoutes
    ensures r == [] <==> (token == "" <==> path in PublicRoutes)
  {
    if token == "" && path !in PublicRoutes then ["/signin"]
    else if token != "" && path in PublicRoutes then ["/"]
    else []
  }

  class Guard {
    var loading: bool
    /** Every `router.replace` issued so far. */
    var replaced: seq<string>

    constructor ()
      ensures loading && replaced == []
    {
      loading := true;
      replaced := [];
    }

    /** Children are shown only once a check has finished. */
    predicate RendersChildren()
      reads this
    {
      !loading
    }

    /** The effect body, given the `getToken()` text. */
    method Check(token: string, path: string)
      modifies this
      ensures !loading && RendersChildren()
      ensures replaced == old(replaced) + Replacements(token, path)
    {
      if token == "" && path !in PublicRoutes {
        replaced := replaced + ["/signin"];
      }
      if token != "" && path in PublicRoutes {
        replaced := replaced + ["/"];
      }
      loading := false;
    }
  }

  /** A fresh guard renders nothing; after its first check it renders its
      children, even when that check has just asked to replace the route, so a
      guarded page is shown until the replace takes effect. */
  method FirstRender(token: string, path: string) returns (before: bool, after: bool, replaced: seq<string>)
    ensures !before && after
    ensures replaced == Replacements(token, path)
    ensures token == "" && path !in PublicRoutes ==> after && replaced == ["/signin"]
  {
    var g := new Guard();
    before := g.RendersChildren();
    g.Check(token, path);
    after := g.RendersChildren();
    replaced := g.replaced;
  }

  /** The store's token text is never "", so the guard never sends anyone to
      sign-in: it only ever moves a visitor on a public page to "/". */
  lemma NeverSendsToSignin(items: map<string, LocalStorage.Item>, path: string)
    requires LocalStorage.WellFormed(items)
    ensures Replacements(LocalStorage.TokenHeader(items), path) == (if path in PublicRoutes then ["/"] else [])
  {
  }
}
