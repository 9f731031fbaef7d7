/**
 * The request middleware: it looks up the verified user, fetches the session
 * only when there is one, publishes both in the request locals, and guards the
 * routes. A signed-in user is sent away from the sign-in pages to `/`, an
 * anonymous user is sent from the protected pages to `/login`, and every other
 * request goes on to the next handler.
 *
 * The user lookup and the session lookup are calls into the authentication
 * service; their results are the parameters `user` and `storedSession`.
 */
module Middleware {
  import opened Wrappers

  const ProtectedRoutes: seq<string> := ["/", "/profile"]
  const AuthRoutes: seq<string> := ["/login", "/register", "/forgot-password"]

  /** What `context.locals` holds once the middleware has run. */
  datatype Locals<U, S> = Locals(user: Option<U>, session: Option<S>)

  datatype Outcome = Redirect(target: string) | Next

  /** `user ? (await getSession()).data.session : null` */
  function SessionFor<U, S>(user: Option<U>, storedSession: Option<S>): (r: Option<S>)
    ensures user.None? ==> r.None?
    ensures user.Some? ==> r == storedSession
  {
    if user.Some? then storedSession else None
  }

  /** The route guard over (signed in, pathname); `includes` is an exact comparison of whole paths. */
  function Guard(signedIn: bool, pathname: string): (r: Outcome)
    ensures r == Redirect("/") <==> signedIn && pathname in AuthRoutes
    ensures r == Redirect("/login") <==> !signedIn && pathname in ProtectedRoutes
    ensures r.Next? <==> (signedIn ==> pathname !in AuthRoutes) && (!signedIn ==> pathname !in ProtectedRoutes)
  {
    if signedIn && pathname in AuthRoutes then Redirect("/")
    else if !signedIn && pathname in ProtectedRoutes then Redirect("/login")
    else Next
  }

  /** `onRequest`: the locals it publishes and the response it chooses. */
  function OnRequest<U, S>(user: Option<U>, storedSession: Option<S>, pathname: string): (r: (Locals<U, S>, Outcome))
    ensures r.0.user == user
    ensures r.0.session == SessionFor(user, storedSession)
    ensures r.1 == Guard(user.Some?, pathname)
  {
    (Locals(user, SessionFor(user, storedSession)), Guard(user.Some?, pathname))
  }

  // ---------------------------------------------------------------------------
  // Properties
  // ---------------------------------------------------------------------------

  /** The locals are published whatever the guard decides, and never hold a session without a user. */
  lemma {:induction false} LocalsConsistent<U, S>(user: Option<U>, storedSession: Option<S>, pathname: string)
    ensures OnRequest(user, storedSession, pathname).0.session.Some? ==> user.Some?
    ensures OnRequest(user, storedSession, pathname).0.user == user
  {
  }

  /** Following a redirect never redirects again: `/` is open to a signed-in user and `/login` to anyone signed out. */
  lemma {:induction false} RedirectsSettle(signedIn: bool, pathname: string)
    requires Guard(signedIn, pathname).Redirect?
    ensures Guard(signedIn, Guard(signedIn, pathname).target) == Next
  {
    assert "/" !in AuthRoutes;
    assert "/login" !in ProtectedRoutes;
  }

  /** The protected and the sign-in pages are disjoint, so no path is closed to everyone. */
  lemma {:induction false} EveryPathOpenToSomeone(pathname: string)
    ensures Guard(true, pathname) == Next || Guard(false, pathname) == Next
  {
    forall i, j | 0 <= i < |ProtectedRoutes| && 0 <= j < |AuthRoutes|
      ensures ProtectedRoutes[i] != AuthRoutes[j]
    {
      assert |ProtectedRoutes[i]| == 1 || ProtectedRoutes[i][1] == 'p';
      assert AuthRoutes[j][1] != 'p' && |AuthRoutes[j]| > 1;
    }
  }

  /** Membership is exact: a path below a protected page, or with a trailing slash, is not guarded. */
  lemma {:induction false} ExactMatchOnly()
    ensures Guard(false, "/profile/x") == Next
    ensures Guard(false, "/profile/") == Next
    ensures Guard(false, "/profile") == Redirect("/login")
    ensures Guard(true, "/login/") == Next
    ensures Guard(true, "/register") == Redirect("/")
  {
    assert "/profile/x" != "/profile" && "/profile/x" != "/";
    assert "/profile/" != "/profile";
    assert "/login/" != "/login" && "/login/" != "/register" && "/login/" != "/forgot-password";
  }
}
