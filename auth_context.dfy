/**
 * The session provider of `contexts/AuthContext.tsx`: who is logged in, decided
 * from the remote user, the `skillnet_user` snapshot and the bare
 * `token`/`userId` pair. Each async handler is one atomic step; the result of
 * each remote call is a parameter.
 */
module AuthContext {
  import opened Wrappers
  import opened Text
  import opened Storage
  import UserUtils

  /** What `getCurrentUser()` resolves to: a user, nothing, or a rejection. */
  datatype Fetched = Fetched(u: UserObj) | NoUser | Threw

  /** The in-memory state after a handler: the `user` state and the storage it leaves. */
  datatype Session = Session(user: Option<UserObj>, store: Store)

  /**
   * The object written to `skillnet_user` after a remote user is accepted:
   * id, name, email, picture, and `username || email.split('@')[0]`. Building
   * it throws when the username is falsy and the email is missing.
   */
  function SnapshotOf(u: UserObj): (r: Option<UserObj>)
    ensures r.Some? <==> Truthy(u.username) || u.email.Some?
    ensures r.Some? ==> r.value.id == u.id && r.value.name == u.name && r.value.email == u.email
    ensures r.Some? ==> r.value.profilePictureUrl == u.profilePictureUrl
    ensures r.Some? ==> r.value.username == Some(UserUtils.UsernameOf(u.username, u.email))
  {
    if Truthy(u.username) then
      Some(UserObj(u.id, u.name, u.username, u.email, u.profilePictureUrl, None, None, None))
    else if u.email.Some? then
      Some(UserObj(u.id, u.name, Some(BeforeAt(u.email.value)), u.email, u.profilePictureUrl, None, None, None))
    else None
  }

  /** The temporary user made from a bare token: `{id: userId || 'temp-id', name: 'User', ...}`. */
  function TempUser(userId: Option<string>): (u: UserObj)
    ensures Truthy(userId) ==> u.id == userId && u.username == userId
    ensures !Truthy(userId) ==> u.id == Some("temp-id") && u.username == Some("user")
    ensures u.name == Some("User") && u.email == Some("user@example.com")
  {
    Identity(OrElse(userId, "temp-id"), "User", "user@example.com", OrElse(userId, "user"))
  }

  /**
   * The fallback chain of `loadUser` when the remote user is missing or the
   * call fails: the parsed snapshot; else, with a token, the temporary user;
   * else nobody.
   */
  function Fallback(s: Store): (r: Option<UserObj>)
    ensures Present(s.skillnetUser) && s.skillnetUser.value.Json? ==> r == Some(s.skillnetUser.value.obj)
    ensures !(Present(s.skillnetUser) && s.skillnetUser.value.Json?) ==>
      r == (if Truthy(s.token) then Some(TempUser(s.userId)) else None)
  {
    if Present(s.skillnetUser) then
      match s.skillnetUser.value
      case Json(o) => Some(o)
      case Garbled(_) => if Truthy(s.token) then Some(TempUser(s.userId)) else None
    else if Truthy(s.token) then Some(TempUser(s.userId))
    else None
  }

  /** The placeholder identity made from an OAuth `userId`: name = id, email and username from its slug. */
  function Placeholder(userId: string): (u: UserObj)
    ensures u.id == Some(userId) && u.name == Some(userId)
    ensures u.email == Some(Slug(userId) + "@example.com") && u.username == Some(Slug(userId))
  {
    Identity(userId, userId, Slug(userId) + "@example.com", Slug(userId))
  }

  /** The user set by `handleAuthCallback` while nobody is logged in yet. */
  function LoadingUser(userId: Option<string>): (u: UserObj)
    ensures Truthy(userId) ==> u == Placeholder(userId.value)
    ensures !Truthy(userId) ==>
      u == Identity("temp-id", "Loading...", "loading@example.com", "Loading...")
  {
    if Truthy(userId) then
      Identity(userId.value, userId.value, Slug(userId.value) + "@example.com", Slug(userId.value))
    else Identity("temp-id", "Loading...", "loading@example.com", "Loading...")
  }

  // ------------------------------------------------------ specifications

  /** `loadUser`: the user and the storage it leaves behind. */
  function LoadSpec(s: Store, remote: Fetched): (r: Session)
    ensures remote.Fetched? && SnapshotOf(remote.u).Some? ==>
      r == Session(Some(remote.u), s.(skillnetUser := Some(Json(SnapshotOf(remote.u).value))))
    ensures !(remote.Fetched? && SnapshotOf(remote.u).Some?) ==> r == Session(Fallback(s), s)
  {
    match remote
    case Fetched(u) =>
      (match SnapshotOf(u)
       case Some(o) => Session(Some(u), s.(skillnetUser := Some(Json(o))))
       case None => Session(Fallback(s), s))
    case _ => Session(Fallback(s), s)
  }

  /** `handleAuthCallback(token, userId)`, starting from the current user. */
  function CallbackSpec(user: Option<UserObj>, s: Store, token: string, userId: Option<string>, remote: Fetched): (r: Session)
    ensures r.store.token == Some(token)
    ensures r.store.theme == s.theme && r.store.authToken == s.authToken
    ensures r.store.refreshToken == s.refreshToken && r.store.planUser == s.planUser
    ensures remote.Fetched? ==>
      r.user == Some(remote.u) && r.store.userId == Some(StringOf(remote.u.id)) &&
      (SnapshotOf(remote.u).Some? ==> r.store.skillnetUser == Some(Json(SnapshotOf(remote.u).value)))
    ensures remote.Fetched? && SnapshotOf(remote.u).None? && Truthy(userId) ==>
      r.store.skillnetUser == Some(Json(Placeholder(userId.value)))
    ensures remote.Fetched? && SnapshotOf(remote.u).None? && !Truthy(userId) ==> r.store.skillnetUser == s.skillnetUser
    ensures !remote.Fetched? && Truthy(userId) ==>
      r.store.userId == userId && r.store.skillnetUser == Some(Json(Placeholder(userId.value)))
    ensures !remote.Fetched? && !Truthy(userId) ==> r.store.userId == s.userId && r.store.skillnetUser == s.skillnetUser
    ensures remote.NoUser? && Truthy(userId) ==> r.user == Some(Placeholder(userId.value))
    ensures remote.Threw? || (remote.NoUser? && !Truthy(userId)) ==>
      r.user == (if user.None? then Some(LoadingUser(userId)) else user)
  {
    var s1 := s.(token := Some(token));
    var s2 := if Truthy(userId) then s1.(userId := userId, skillnetUser := Some(Json(Placeholder(userId.value)))) else s1;
    var u2 := if user.None? then Some(LoadingUser(userId)) else user;
    match remote
    case Fetched(u) =>
      var s3 := s2.(userId := Some(StringOf(u.id)));
      (match SnapshotOf(u)
       case Some(o) => Session(Some(u), s3.(skillnetUser := Some(Json(o))))
       case None => Session(Some(u), s3))
    case NoUser => Session(if Truthy(userId) then Some(Placeholder(userId.value)) else u2, s2)
    case Threw => Session(u2, s2)
  }

  /** `logout`: the three session keys are removed. */
  function LogoutStore(s: Store): (r: Store)
    ensures r.token.None? && r.userId.None? && r.skillnetUser.None?
    ensures r.theme == s.theme && r.authToken == s.authToken && r.refreshToken == s.refreshToken
    ensures r.planUser == s.planUser
  {
    s.(token := None, userId := None, skillnetUser := None)
  }

  /** The answer of `loginWithCredentials`. */
  datatype LoginResponse = LoginResponse(success: bool, error: Option<string>)

  /** What `login(email, password)` of the auth service resolves to, or its rejection. */
  datatype LoginOutcome = LoginReturned(success: bool, user: Option<UserObj>, error: Option<string>) | LoginThrew

  /** The message posted by the OAuth pop-up window. */
  datatype MessageData = MessageData(kind: Option<string>, token: Option<string>, userId: Option<string>, error: Option<string>)

  /** `updateProfile`'s new user: the old fields spread, then name, bio, skills and the picture. */
  function UpdatedUser(user: Option<UserObj>, name: string, bio: string, skills: seq<string>, pictureUrl: Option<string>): (u: UserObj)
    ensures u.name == Some(name) && u.bio == Some(bio) && u.skills == Some(skills)
    ensures pictureUrl.Some? ==> u.profilePicture == pictureUrl
    ensures pictureUrl.None? && user.Some? ==> u.profilePicture == user.value.profilePicture
    ensures user.Some? ==> u.id == user.value.id && u.email == user.value.email && u.username == user.value.username
    ensures user.None? ==> u.id.None? && u.email.None? && u.username.None?
  {
    var base := if user.Some? then user.value else UserObj(None, None, None, None, None, None, None, None);
    base.(name := Some(name), bio := Some(bio), skills := Some(skills),
          profilePicture := if pictureUrl.Some? then pictureUrl else base.profilePicture)
  }

  // ------------------------------------------------------------ provider

  class AuthProvider {
    var user: Option<UserObj>
    var loading: bool
    const ls: LocalStorage

    /** The provider before its mount effect: nobody, loading. */
    constructor (storage: LocalStorage)
      ensures ls == storage && user.None? && loading
    {
      ls := storage;
      user := None;
      loading := true;
    }

    /** `loadUser`. */
    method LoadUser(remote: Fetched)
      modifies this, ls
      ensures Session(user, ls.data) == LoadSpec(old(ls.data), remote)
      ensures !loading
    {
      loading := true;
      var failed := false;
      match remote {
        case Fetched(u) =>
          user := Some(u);
          var snapshot := SnapshotOf(u);
          if snapshot.Some? {
            ls.data := ls.data.(skillnetUser := Some(Json(snapshot.value)));
          } else {
            failed := true;
          }
        case NoUser =>
          user := Fallback(ls.data);
        case Threw =>
          failed := true;
      }
      if failed {
        user := Fallback(ls.data);
      }
      loading := false;
    }

    /** The mount effect: load the user only when a token is stored. */
    method Startup(remote: Fetched)
      modifies this, ls
      ensures !loading
      ensures Truthy(old(ls.data).token) ==> Session(user, ls.data) == LoadSpec(old(ls.data), remote)
      ensures !Truthy(old(ls.data).token) ==> user == old(user) && ls.data == old(ls.data)
    {
      if Truthy(ls.data.token) {
        LoadUser(remote);
      } else {
        loading := false;
      }
    }

    /** `loginWithCredentials`: never rejects. */
    method LoginWithCredentials(outcome: LoginOutcome) returns (res: LoginResponse)
      modifies this, ls
      ensures !loading
      ensures outcome.LoginThrew? ==> res == LoginResponse(false, Some("Login failed")) && user == old(user) && ls.data == old(ls.data)
      ensures outcome.LoginReturned? && !(outcome.success && outcome.user.Some?) ==>
        res == LoginResponse(false, outcome.error) && user == old(user) && ls.data == old(ls.data)
      ensures outcome.LoginReturned? && outcome.success && outcome.user.Some? ==>
        user == outcome.user &&
        (SnapshotOf(outcome.user.value).Some? ==>
           res == LoginResponse(true, None) &&
           ls.data == old(ls.data).(skillnetUser := Some(Json(SnapshotOf(outcome.user.value).value)))) &&
        (SnapshotOf(outcome.user.value).None? ==>
           res == LoginResponse(false, Some("Login failed")) && ls.data == old(ls.data))
    {
      loading := true;
      match outcome {
        case LoginThrew =>
          res := LoginResponse(false, Some("Login failed"));
        case LoginReturned(success, u, error) =>
          if success && u.Some? {
            user := u;
            var snapshot := SnapshotOf(u.value);
            if snapshot.Some? {
              ls.data := ls.data.(skillnetUser := Some(Json(snapshot.value)));
              res := LoginResponse(true, None);
            } else {
              res := LoginResponse(false, Some("Login failed"));
            }
          } else {
            res := LoginResponse(false, error);
          }
      }
      loading := false;
    }

    /** `handleAuthCallback(token, userId)`: never rejects. */
    method HandleAuthCallback(token: string, userId: Option<string>, remote: Fetched)
      modifies this, ls
      ensures Session(user, ls.data) == CallbackSpec(old(user), old(ls.data), token, userId, remote)
      ensures !loading
    {
      ls.data := ls.data.(token := Some(token));
      if Truthy(userId) {
        ls.data := ls.data.(userId := userId);
        ls.data := ls.data.(skillnetUser := Some(Json(Placeholder(userId.value))));
      }
      if user.None? {
        user := Some(LoadingUser(userId));
      }
      match remote {
        case Fetched(u) =>
          user := Some(u);
          ls.data := ls.data.(userId := Some(StringOf(u.id)));
          var snapshot := SnapshotOf(u);
          if snapshot.Some? {
            ls.data := ls.data.(skillnetUser := Some(Json(snapshot.value)));
          }
        case NoUser =>
          if Truthy(userId) {
            user := Some(Placeholder(userId.value));
          }
        case Threw =>
      }
      loading := false;
    }

    /**
     * The `message` listener: only same-origin `oauth_callback` messages with a
     * token start the callback; an error alone is only logged.
     */
    method OnMessage(origin: string, windowOrigin: string, data: Option<MessageData>, remote: Fetched)
      returns (handled: bool)
      modifies this, ls
      ensures handled <==> origin == windowOrigin && data.Some? && data.value.kind == Some("oauth_callback") && Truthy(data.value.token)
      ensures handled ==> Session(user, ls.data) == CallbackSpec(old(user), old(ls.data), data.value.token.value, data.value.userId, remote) && !loading
      ensures !handled ==> user == old(user) && ls.data == old(ls.data) && loading == old(loading)
    {
      handled := false;
      if origin != windowOrigin {
        return;
      }
      if data.Some? && data.value.kind == Some("oauth_callback") {
        if Truthy(data.value.token) {
          HandleAuthCallback(data.value.token.value, data.value.userId, remote);
          handled := true;
        }
      }
    }

    /**
     * `logout`. `afterAuthLogout` is the storage as `authLogout()` of the auth
     * service leaves it; that service is not part of this model.
     */
    method Logout(afterAuthLogout: Store)
      modifies this, ls
      ensures user.None? && ls.data == LogoutStore(afterAuthLogout) && loading == old(loading)
    {
      ls.data := afterAuthLogout;
      ls.data := ls.data.(token := None);
      ls.data := ls.data.(userId := None);
      ls.data := ls.data.(skillnetUser := None);
      user := None;
    }

    /** `updateProfile`; `pictureUrl` is the object URL made for a chosen file. */
    method UpdateProfile(name: string, bio: string, skills: seq<string>, pictureUrl: Option<string>)
      modifies this, ls
      ensures user == Some(UpdatedUser(old(user), name, bio, skills, pictureUrl))
      ensures ls.data == old(ls.data).(skillnetUser := Some(Json(user.value)))
      ensures !loading
    {
      loading := true;
      var updated := UpdatedUser(user, name, bio, skills, pictureUrl);
      user := Some(updated);
      ls.data := ls.data.(skillnetUser := Some(Json(updated)));
      loading := false;
    }
  }

  // -------------------------------------------------------------- lemmas

  /** Without a token and a parseable snapshot, the fallback is nobody. */
  lemma NoTokenNoSnapshotNobody(s: Store)
    requires !Truthy(s.token) && !(s.skillnetUser.Some? && s.skillnetUser.value.Json?)
    ensures Fallback(s) == None
  {
  }

  /** After a logout nobody is recovered from storage and the user is not logged in. */
  lemma LogoutForgetsEveryone(s: Store)
    ensures Fallback(LogoutStore(s)) == None
    ensures !UserUtils.IsUserLoggedIn(LogoutStore(s))
  {
  }

  /**
   * An accepted remote user survives a reload with the server unreachable: the
   * fallback reads back the snapshot, and the normalised snapshot keeps the
   * user's id and the derived username.
   */
  lemma {:induction false} LoadedUserSurvivesReload(s: Store, u: UserObj)
    requires SnapshotOf(u).Some?
    ensures var after := LoadSpec(s, Fetched(u)).store;
      Fallback(after) == SnapshotOf(u) &&
      UserUtils.GetStoredUserData(after).Some? &&
      UserUtils.GetStoredUserData(after).value.id == OrElse(u.id, "") &&
      UserUtils.GetStoredUserData(after).value.username == UserUtils.UsernameOf(u.username, u.email)
  {
    var o := SnapshotOf(u).value;
    var name := UserUtils.UsernameOf(u.username, u.email);
    assert o.username == Some(name);
    if name == [] {
      assert !Truthy(u.username) && u.email.Some?;
      assert o.email == u.email;
    }
  }

  /**
   * An OAuth callback that carries a user id, followed by a reload with the
   * server unreachable, recovers the placeholder identity: same id, the slug as
   * username, and the user counts as logged in.
   */
  lemma {:induction false} CallbackSurvivesReload(user: Option<UserObj>, s: Store, token: string, userId: string)
    requires token != [] && userId != []
    ensures var after := CallbackSpec(user, s, token, Some(userId), NoUser);
      after.user == Some(Placeholder(userId)) &&
      Fallback(after.store) == Some(Placeholder(userId)) &&
      UserUtils.IsUserLoggedIn(after.store) &&
      UserUtils.GetStoredUserData(after.store).value.id == userId &&
      UserUtils.GetStoredUserData(after.store).value.username == Slug(userId)
  {
  }

  /**
   * A callback the server answers with a user, followed by a reload with the
   * server unreachable, recovers that user's snapshot: the same id and the
   * derived username, and with a non-empty token the user counts as logged in.
   */
  lemma {:induction false} FetchedCallbackSurvivesReload(user: Option<UserObj>, s: Store, token: string, userId: Option<string>, u: UserObj)
    requires SnapshotOf(u).Some?
    ensures var after := CallbackSpec(user, s, token, userId, Fetched(u));
      after.user == Some(u) &&
      Fallback(after.store) == SnapshotOf(u) &&
      UserUtils.GetStoredUserData(after.store).Some? &&
      UserUtils.GetStoredUserData(after.store).value.id == OrElse(u.id, "") &&
      UserUtils.GetStoredUserData(after.store).value.username == UserUtils.UsernameOf(u.username, u.email) &&
      (token != [] ==> UserUtils.IsUserLoggedIn(after.store))
  {
    var o := SnapshotOf(u).value;
    var name := UserUtils.UsernameOf(u.username, u.email);
    assert o.username == Some(name);
    if name == [] {
      assert !Truthy(u.username) && u.email.Some?;
      assert o.email == u.email;
    }
  }

  /** A callback with a token and a user id always leaves the user logged in, whatever the server says. */
  lemma {:induction false} CallbackLogsIn(user: Option<UserObj>, s: Store, token: string, userId: string, remote: Fetched)
    requires token != [] && userId != []
    ensures UserUtils.IsUserLoggedIn(CallbackSpec(user, s, token, Some(userId), remote).store)
    ensures CallbackSpec(user, s, token, Some(userId), remote).user.Some?
  {
    var r := CallbackSpec(user, s, token, Some(userId), remote);
    match remote {
      case Fetched(u) =>
        assert r.store.skillnetUser.Some? && r.store.skillnetUser.value.Json?;
      case NoUser =>
      case Threw =>
    }
  }

  /** The callback sets the loading placeholder only when nobody was logged in; an existing user is kept until the server answers. */
  lemma CallbackKeepsExistingUser(u0: UserObj, s: Store, token: string, userId: Option<string>)
    ensures CallbackSpec(Some(u0), s, token, userId, Threw).user == Some(u0)
    ensures CallbackSpec(None, s, token, userId, Threw).user == Some(LoadingUser(userId))
  {
  }
}
