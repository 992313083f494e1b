/** The routing decision of `components/auth/ProtectedRoute.tsx`. */
module ProtectedRoute {
  import opened Wrappers
  import opened Storage
  import AuthContext

  /** What the guard renders. */
  datatype View = Spinner | LoadingUserData | RedirectToLogin | ChildOutlet

  /** `hasToken`, read once from storage when the guard mounts (and `false` before that). */
  function HasTokenAtMount(s: Store): (b: bool)
    ensures b <==> Truthy(s.token)
  {
    Truthy(s.token)
  }

  /** The chain of early returns over `loading`, `user` and `hasToken`. */
  function Route(loading: bool, user: Option<UserObj>, hasToken: bool): (v: View)
    ensures v == Spinner <==> loading
    ensures v == LoadingUserData <==> !loading && user.None? && hasToken
    ensures v == RedirectToLogin <==> !loading && user.None? && !hasToken
    ensures v == ChildOutlet <==> !loading && user.Some?
  {
    if loading then Spinner
    else if user.None? && hasToken then LoadingUserData
    else if user.None? && !hasToken then RedirectToLogin
    else ChildOutlet
  }

  /** After a logout, a guard mounted afterwards sends the visitor to the login page. */
  lemma LogoutRedirects(s: Store)
    ensures Route(false, None, HasTokenAtMount(AuthContext.LogoutStore(s))) == RedirectToLogin
  {
  }

  /**
   * An OAuth callback always leaves some user set, so once loading has
   * finished the guard shows the protected page, whatever the server said.
   */
  lemma {:induction false} CallbackReachesOutlet(user: Option<UserObj>, s: Store, token: string, userId: Option<string>, remote: AuthContext.Fetched, hasToken: bool)
    ensures Route(false, AuthContext.CallbackSpec(user, s, token, userId, remote).user, hasToken) == ChildOutlet
  {
    assert AuthContext.CallbackSpec(user, s, token, userId, remote).user.Some?;
  }

  /**
   * With a stored token, a finished `loadUser` never redirects: the fallback
   * chain always produces a user when a token is present.
   */
  lemma {:induction false} TokenNeverRedirectsAfterLoad(s: Store, remote: AuthContext.Fetched)
    requires Truthy(s.token)
    ensures Route(false, AuthContext.LoadSpec(s, remote).user, HasTokenAtMount(s)) != RedirectToLogin
  {
    assert AuthContext.Fallback(s).Some?;
  }
}
