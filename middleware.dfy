/** The route guard in middleware.ts: signed-out visitors are sent from the
    dashboard to the login page, signed-in operators from the auth pages to
    the dashboard. Whether the session cookie decodes to a token is a
    parameter: the token check itself belongs to next-auth. */
module Middleware {
  import opened Strings

  /** What the guard answers: let the request through, or redirect it. */
  datatype Decision = Next | Redirect(location: string)

  const LoginPath: string := "/auth/login"
  const DashboardPath: string := "/dashboard"

  /** `pathname.startsWith("/auth")`. */
  predicate IsAuthPage(path: string) {
    StartsWith(path, "/auth")
  }

  /** `pathname.startsWith("/dashboard")`. */
  predicate IsProtectedPage(path: string) {
    StartsWith(path, "/dashboard")
  }

  /** The body of `middleware`: the protected-page check runs first, then the
      auth-page check, and anything else falls through to `next()`. */
  function Decide(path: string, hasToken: bool): (d: Decision)
    ensures d == Redirect(LoginPath) <==> IsProtectedPage(path) && !hasToken
    ensures d == Redirect(DashboardPath) <==> IsAuthPage(path) && hasToken
    ensures d == Next <==> !(IsProtectedPage(path) && !hasToken) && !(IsAuthPage(path) && hasToken)
  {
    if IsProtectedPage(path) && !hasToken then Redirect(LoginPath)
    else if IsAuthPage(path) && hasToken then Redirect(DashboardPath)
    else Next
  }

  /** `/prefix/:path*` in the matcher: the prefix itself or anything below it. */
  predicate UnderPrefix(path: string, prefix: string) {
    path == prefix || StartsWith(path, prefix + "/")
  }

  /** `config.matcher`: the paths the guard runs on at all. */
  predicate Matched(path: string) {
    UnderPrefix(path, "/dashboard") || UnderPrefix(path, "/auth")
  }

  /** A request as Next.js routes it: unmatched paths never reach the guard. */
  function Handle(path: string, hasToken: bool): (d: Decision)
    ensures !Matched(path) ==> d == Next
    ensures Matched(path) ==> d == Decide(path, hasToken)
  {
    if Matched(path) then Decide(path, hasToken) else Next
  }

  /** Every matched path is under exactly one of the two prefixes. */
  lemma {:induction false} MatchedPrefixesDisjoint(path: string)
    requires Matched(path)
    ensures IsProtectedPage(path) != IsAuthPage(path)
  {
    if IsProtectedPage(path) {
      assert path[1] == 'd';
    } else {
      assert path[..5] == "/auth" by {
        if path != "/auth" {
          assert path[..5] == path[..6][..5];
        }
      }
    }
  }

  /** On a matched path, signed-out visitors get through only off the
      dashboard, and signed-in operators only off the auth pages. */
  lemma {:induction false} PassesIff(path: string, hasToken: bool)
    requires Matched(path)
    ensures Handle(path, hasToken) == Next <==>
      (if hasToken then IsProtectedPage(path) else IsAuthPage(path))
  {
    MatchedPrefixesDisjoint(path);
  }

  /** Following a redirect never redirects again: the login page lets a
      signed-out visitor through and the dashboard lets a signed-in one
      through, so the guard cannot loop. */
  lemma {:induction false} RedirectSettles(path: string, hasToken: bool)
    ensures Handle(path, hasToken).Redirect? ==>
      Handle(Handle(path, hasToken).location, hasToken) == Next
  {
    assert StartsWith(LoginPath, "/auth");
    assert !StartsWith(LoginPath, "/dashboard") by { assert LoginPath[1] != 'd'; }
    assert StartsWith(DashboardPath, "/dashboard");
    assert !StartsWith(DashboardPath, "/auth") by { assert DashboardPath[1] != 'a'; }
  }

  /** The guard's concrete answers on the routes of the application. */
  lemma GuardExamples()
    ensures Handle("/dashboard/orders", false) == Redirect("/auth/login")
    ensures Handle("/dashboard/orders", true) == Next
    ensures Handle("/auth/login", true) == Redirect("/dashboard")
    ensures Handle("/auth/login", false) == Next
    ensures Handle("/", false) == Next
  {
    assert StartsWith("/dashboard/orders", "/dashboard/");
    assert !StartsWith("/dashboard/orders", "/auth") by { assert "/dashboard/orders"[1] != 'a'; }
    assert UnderPrefix("/auth/login", "/auth") by { assert StartsWith("/auth/login", "/auth/"); }
    assert !Matched("/");
  }
}
