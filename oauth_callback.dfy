/**
 * The mount effect of `pages/OAuthCallbackPage.tsx`: the redirect's query
 * parameters become a stored placeholder identity and a call of the session
 * provider's callback, or an error message. `decode` stands for
 * `decodeURIComponent`.
 */
module OAuthCallback {
  import opened Wrappers
  import opened Storage
  import opened AuthContext
  import UserUtils

  const InvalidResponse: string := "Invalid OAuth response. No token or error message received."

  /** The raw `token`, `userId` and `error` query parameters. */
  datatype Query = Query(token: Option<string>, userId: Option<string>, error: Option<string>)

  /** `encodedUserId ? decodeURIComponent(encodedUserId) : null`. */
  function DecodedUserId(q: Query, decode: string -> string): (r: Option<string>)
    ensures Truthy(q.userId) ==> r == Some(decode(q.userId.value))
    ensures !Truthy(q.userId) ==> r.None?
  {
    if Truthy(q.userId) then Some(decode(q.userId.value)) else None
  }

  /** The page's own writes before it calls the provider: `userId` and the placeholder snapshot. */
  function PlaceholderStore(s: Store, userId: Option<string>): (r: Store)
    ensures Truthy(userId) ==> r == s.(userId := userId, skillnetUser := Some(Json(Placeholder(userId.value))))
    ensures !Truthy(userId) ==> r == s
  {
    if Truthy(userId) then s.(userId := userId, skillnetUser := Some(Json(Placeholder(userId.value)))) else s
  }

  /** `saveUserProfile`: a remote user's snapshot overwrites `skillnet_user`; anything else changes nothing. */
  function SavedProfileStore(s: Store, profile: Fetched): (r: Store)
    ensures profile.Fetched? && SnapshotOf(profile.u).Some? ==> r == s.(skillnetUser := Some(Json(SnapshotOf(profile.u).value)))
    ensures !(profile.Fetched? && SnapshotOf(profile.u).Some?) ==> r == s
  {
    match profile
    case Fetched(u) => (match SnapshotOf(u) case Some(o) => s.(skillnetUser := Some(Json(o))) case None => s)
    case _ => s
  }

  class CallbackPage {
    const auth: AuthProvider
    const ls: LocalStorage
    var error: Option<string>
    var isProcessing: bool
    /** The path a scheduled `navigate` goes to. */
    var navigation: Option<string>

    constructor (provider: AuthProvider)
      ensures auth == provider && ls == provider.ls
      ensures error.None? && isProcessing && navigation.None?
    {
      auth := provider;
      ls := provider.ls;
      error := None;
      isProcessing := true;
      navigation := None;
    }

    /**
     * The effect. `remote` is what the provider's `getCurrentUser` call gives,
     * `profile` what the page's own `saveUserProfile` call gives; the two
     * async continuations are taken to run in that order.
     */
    method Effect(q: Query, decode: string -> string, remote: Fetched, profile: Fetched)
      requires auth.ls == ls
      modifies this, auth, ls
      ensures Truthy(q.token) ==>
        var userId := DecodedUserId(q, decode);
        var arg := if Truthy(userId) then userId else None;
        var session := CallbackSpec(old(auth.user), PlaceholderStore(old(ls.data), userId), q.token.value, arg, remote);
        auth.user == session.user && ls.data == SavedProfileStore(session.store, profile) &&
        !auth.loading && navigation == Some("/") && error == old(error) && isProcessing == old(isProcessing)
      ensures !Truthy(q.token) ==>
        auth.user == old(auth.user) && ls.data == old(ls.data) && !isProcessing && navigation == old(navigation) &&
        error == Some(if Truthy(q.error) then decode(q.error.value) else InvalidResponse)
    {
      if Truthy(q.token) {
        var userId := DecodedUserId(q, decode);
        if Truthy(userId) {
          ls.data := ls.data.(userId := userId);
          ls.data := ls.data.(skillnetUser := Some(Json(Placeholder(userId.value))));
        }
        auth.HandleAuthCallback(q.token.value, if Truthy(userId) then userId else None, remote);
        match profile {
          case Fetched(u) =>
            var snapshot := SnapshotOf(u);
            if snapshot.Some? {
              ls.data := ls.data.(skillnetUser := Some(Json(snapshot.value)));
            }
          case NoUser =>
          case Threw =>
        }
        navigation := Some("/");
        return;
      }
      if Truthy(q.error) {
        error := Some(decode(q.error.value));
        isProcessing := false;
        return;
      }
      error := Some(InvalidResponse);
      isProcessing := false;
    }
  }

  // -------------------------------------------------------------- lemmas

  /** The page's placeholder writes are the ones the provider makes again: doing them first changes nothing. */
  lemma PlaceholderWritesAbsorbed(user: Option<UserObj>, s: Store, token: string, userId: Option<string>, remote: Fetched)
    ensures CallbackSpec(user, PlaceholderStore(s, userId), token, userId, remote) == CallbackSpec(user, s, token, userId, remote)
  {
  }

  /**
   * A redirect carrying a token and a user id leaves the user logged in and
   * navigates home, whatever either remote call answers.
   */
  lemma {:induction false} TokenAndIdLogIn(user: Option<UserObj>, s: Store, token: string, userId: string, remote: Fetched, profile: Fetched)
    requires token != [] && userId != []
    ensures var session := CallbackSpec(user, PlaceholderStore(s, Some(userId)), token, Some(userId), remote);
      UserUtils.IsUserLoggedIn(SavedProfileStore(session.store, profile)) && session.user.Some?
  {
    PlaceholderWritesAbsorbed(user, s, token, Some(userId), remote);
    CallbackLogsIn(user, s, token, userId, remote);
  }
}
