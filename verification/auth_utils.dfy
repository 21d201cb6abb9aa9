/** The route guard: which paths can be visited without signing in. */
module AuthUtils {

  /** The landing page after sign-in. */
  const HomeRoute: string := "/app"
  /** Where a signed-in user without access is sent. */
  const UnauthorizedRoute: string := "/unauthorized"

  /** The paths open to everyone, compared by exact string equality. */
  const PublicPaths: seq<string> := ["/login", UnauthorizedRoute, "/", "/privacy", "/terms"]

  /** `Array.prototype.includes` on a list of strings. */
  function Includes(list: seq<string>, x: string): (r: bool)
    ensures r <==> x in list
  {
    if |list| == 0 then false
    else list[0] == x || Includes(list[1..], x)
  }

  /** `requiresAuth`: every path but the public ones needs a signed-in
      user. */
  function RequiresAuth(pathname: string): (r: bool)
    ensures !r <==>
      || pathname == "/login" || pathname == "/unauthorized" || pathname == "/"
      || pathname == "/privacy" || pathname == "/terms"
  {
    !Includes(PublicPaths, pathname)
  }

  /** The home route is protected. */
  lemma HomeRequiresAuth()
    ensures RequiresAuth(HomeRoute)
  {
  }

  /** Matching is exact: a public path other than the root, followed by
      anything at all (a sub-path, a trailing slash, a query), is
      protected. */
  lemma ExtendedPublicPathsRequireAuth(p: string, rest: string)
    requires p in PublicPaths && p != "/"
    requires |rest| > 0
    ensures RequiresAuth(p + rest)
  {
    var q := p + rest;
    // the extension is longer than p, and keeps p's second character, in
    // which the public paths other than the root differ
    assert |q| > |p| >= 2 && q[1] == p[1];
    if p == "/login" {
      assert q[1] == 'l';
    } else if p == "/unauthorized" {
      assert q[1] == 'u';
    } else if p == "/privacy" {
      assert q[1] == 'p';
    } else {
      assert q[1] == 't';
    }
  }

  /** Every public path with a slash appended is protected, the root
      included ("//"). */
  lemma TrailingSlashRequiresAuth(p: string)
    requires p in PublicPaths
    ensures RequiresAuth(p + "/")
  {
  }
}
