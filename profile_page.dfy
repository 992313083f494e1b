/**
 * `pages/ProfilePage.tsx`: a user's profile. The page decides whose profile
 * it shows and whether it is the viewer's own, fills the view from local data
 * first (the stored snapshot, the session's user, or a placeholder) and then,
 * with a token, from the profile service; an edit is shown at once and then
 * sent.
 */
module ProfilePage {
  import opened Wrappers
  import opened Text
  import opened Storage
  import opened UserUtils
  import opened UsersApi

  const LoginToUpdate: string := "You must be logged in to update your profile"
  const SavedLocallyOnly: string := "Profile update only saved locally. Changes will be synced when you reconnect."

  /** The fields of `userData` the page fills in (its follower counts and stats are always zero). */
  datatype ProfileView = ProfileView(id: string, name: string, username: string, profilePicture: string, bio: string)

  const DefaultView: ProfileView := ProfileView("", "", "", "", "")

  /** `editedProfile`: the edit form's three fields. */
  datatype EditedProfile = EditedProfile(fullName: string, bio: string, profilePictureUrl: string)

  /** The form field an input change names. */
  datatype ProfileField = FullName | Bio | PictureUrl

  /** `s?.toLowerCase()`. */
  function LowerOpt(s: Option<string>): (r: Option<string>)
    ensures r.Some? <==> s.Some?
    ensures s.Some? ==> r.value == Lower(s.value)
  {
    if s.Some? then Some(Lower(s.value)) else None
  }

  /**
   * `isCurrentUserProfile`, given the session's user, the stored snapshot and
   * the route's name. An absent name equals an absent field, as `undefined
   * === undefined` does.
   */
  function IsCurrentUserProfile(user: Option<UserObj>, s: Store, route: Option<string>): (r: bool)
    ensures user.None? ==> !r
  {
    if user.None? then false
    else
      var stored := GetStoredUserData(s);
      var current := LowerOpt(route);
      (stored.Some? && (Some(Lower(stored.value.username)) == current || Some(Lower(stored.value.name)) == current))
      || LowerOpt(user.value.username) == current || LowerOpt(user.value.name) == current
  }

  /** Where the page's local data comes from. */
  datatype Source =
    | OwnStored      // a route name the stored snapshot answers to
    | OtherUser      // a route name it does not answer to
    | SessionUser    // no route name, a logged-in user
    | StoredOnly     // no route name, no session, a stored snapshot
    | NoSource       // nothing at all: the page's error path

  function SourceOf(route: Option<string>, user: Option<UserObj>, stored: Option<StoredUserData>): (src: Source)
    ensures src == OwnStored <==>
      Truthy(route) && stored.Some? &&
      (EqualsIgnoreCase(stored.value.username, route.value) || EqualsIgnoreCase(stored.value.name, route.value))
    ensures src == NoSource <==> !Truthy(route) && user.None? && stored.None?
  {
    if Truthy(route) then
      if stored.Some? && (EqualsIgnoreCase(stored.value.username, route.value) || EqualsIgnoreCase(stored.value.name, route.value))
      then OwnStored else OtherUser
    else if user.Some? then SessionUser
    else if stored.Some? then StoredOnly
    else NoSource
  }

  function StoredView(d: StoredUserData): ProfileView {
    ProfileView(d.id, d.name, d.username, OrElse(d.profilePictureUrl, ""), OrElse(d.bio, ""))
  }

  function StoredEdit(d: StoredUserData): EditedProfile {
    EditedProfile(d.name, OrElse(d.bio, ""), OrElse(d.profilePictureUrl, ""))
  }

  function SessionView(u: UserObj): ProfileView {
    ProfileView(OrElse(u.id, ""), OrElse(u.name, ""), UsernameOf(u.username, u.email),
                OrElse(u.profilePictureUrl, ""), OrElse(u.bio, ""))
  }

  function SessionEdit(u: UserObj): EditedProfile {
    EditedProfile(OrElse(u.name, ""), OrElse(u.bio, ""), OrElse(u.profilePictureUrl, ""))
  }

  /** The view of another user's profile when there is no token. */
  function Placeholder(name: string): (v: ProfileView)
    ensures v.id == name && v.name == name && v.username == name && v.profilePicture == "" && v.bio == ""
  {
    DefaultView.(id := name, name := name, username := name)
  }

  /** `profileData` as written: the stored snapshot's name and username come before the service's, whoever it belongs to. */
  function ApiView(api: Profile, stored: Option<StoredUserData>, route: Option<string>): (v: ProfileView)
    ensures v.id == api.userId
    ensures Truthy(api.fullName) ==> v.name == api.fullName.value
    ensures !Truthy(api.fullName) && stored.Some? && stored.value.name != [] ==> v.name == stored.value.name
    ensures stored.Some? && stored.value.username != [] ==> v.username == stored.value.username
    ensures (stored.None? || stored.value.username == []) && api.userId != [] ==> v.username == api.userId
    ensures Truthy(api.bio) ==> v.bio == api.bio.value
    ensures !Truthy(api.profilePictureUrl) ==> v.profilePicture == ""
  {
    var storedName := if stored.Some? then stored.value.name else "";
    var storedUsername := if stored.Some? then stored.value.username else "";
    ProfileView(api.userId,
                OrElse(api.fullName, Or(storedName, OrElse(route, ""))),
                Or(storedUsername, Or(api.userId, OrElse(route, ""))),
                OrElse(api.profilePictureUrl, ""),
                OrElse(api.bio, ""))
  }

  function ApiEdit(api: Profile): EditedProfile {
    EditedProfile(OrElse(api.fullName, ""), OrElse(api.bio, ""), OrElse(api.profilePictureUrl, ""))
  }

  /**
   * The local step of `fetchUserProfile`: the view and form it sets (or
   * keeps), and the id it will ask the service for ("" for none).
   */
  function LocalStep(src: Source, route: Option<string>, user: Option<UserObj>, stored: Option<StoredUserData>,
                     token: bool, view: ProfileView, edit: EditedProfile): (r: (ProfileView, EditedProfile, string))
    requires src == SourceOf(route, user, stored) && src != NoSource
    ensures src == OwnStored || src == StoredOnly ==>
      r == (StoredView(stored.value), StoredEdit(stored.value), stored.value.id)
    ensures src == OtherUser ==> r.1 == edit && r.2 == route.value && r.0 == (if token then view else Placeholder(route.value))
    ensures src == SessionUser ==> r.2 == OrElse(user.value.id, "")
    ensures src == SessionUser && Truthy(user.value.name) ==> r.0 == SessionView(user.value) && r.1 == SessionEdit(user.value)
    ensures src == SessionUser && !Truthy(user.value.name) ==> r.0 == view && r.1 == edit
  {
    match src
    case OwnStored => (StoredView(stored.value), StoredEdit(stored.value), stored.value.id)
    case OtherUser => (if token then view else Placeholder(route.value), edit, route.value)
    case SessionUser =>
      var u := user.value;
      if Truthy(u.name) then (SessionView(u), SessionEdit(u), OrElse(u.id, "")) else (view, edit, OrElse(u.id, ""))
    case StoredOnly => (StoredView(stored.value), StoredEdit(stored.value), stored.value.id)
  }

  /**
   * `fetchUserProfile` as a whole: the view and form after it, and the id the
   * service was asked for. `remote` is what `getUserProfile` answers.
   */
  function Fetched(route: Option<string>, user: Option<UserObj>, s: Store, remote: Option<Profile>,
                   view: ProfileView, edit: EditedProfile): (r: (ProfileView, EditedProfile, Option<string>))
    ensures r.2.Some? ==> Truthy(s.token) && r.2.value != []
    ensures SourceOf(route, user, GetStoredUserData(s)) == NoSource ==> r == (view, edit, None)
    ensures var stored := GetStoredUserData(s);
      var src := SourceOf(route, user, stored);
      src != NoSource && (remote.None? || r.2.None?) ==>
        var local := LocalStep(src, route, user, stored, Truthy(s.token), view, edit);
        r.0 == local.0 && r.1 == local.1
    ensures remote.Some? && r.2.Some? ==> r.0 == ApiView(remote.value, GetStoredUserData(s), route) && r.1 == ApiEdit(remote.value)
  {
    var stored := GetStoredUserData(s);
    var src := SourceOf(route, user, stored);
    if src == NoSource then (view, edit, None)
    else
      var local := LocalStep(src, route, user, stored, Truthy(s.token), view, edit);
      if !Truthy(s.token) || local.2 == "" then (local.0, local.1, None)
      else if remote.Some? then (ApiView(remote.value, stored, route), ApiEdit(remote.value), Some(local.2))
      else (local.0, local.1, Some(local.2))
  }

  /** `editedProfile.fullName || prev.name` and the like: an empty field keeps what is shown. */
  function Optimistic(prev: ProfileView, e: EditedProfile): (v: ProfileView)
    ensures v.id == prev.id && v.username == prev.username
    ensures e.fullName != [] ==> v.name == e.fullName
    ensures e.fullName == [] ==> v.name == prev.name
    ensures e.bio != [] ==> v.bio == e.bio
    ensures e.bio == [] ==> v.bio == prev.bio
    ensures e.profilePictureUrl != [] ==> v.profilePicture == e.profilePictureUrl
    ensures e.profilePictureUrl == [] ==> v.profilePicture == prev.profilePicture
  {
    prev.(name := Or(e.fullName, prev.name), bio := Or(e.bio, prev.bio), profilePicture := Or(e.profilePictureUrl, prev.profilePicture))
  }

  /** `{ ...prev, [name]: value }`. */
  function WithField(e: EditedProfile, f: ProfileField, value: string): (r: EditedProfile)
    ensures f == FullName ==> r == e.(fullName := value)
    ensures f == Bio ==> r == e.(bio := value)
    ensures f == PictureUrl ==> r == e.(profilePictureUrl := value)
  {
    match f
    case FullName => e.(fullName := value)
    case Bio => e.(bio := value)
    case PictureUrl => e.(profilePictureUrl := value)
  }

  class ProfileScreen {
    var loading: bool
    var userData: ProfileView
    var isEditing: bool
    var edited: EditedProfile
    var updateSuccess: bool
    var updateError: string

    constructor ()
      ensures loading && userData == DefaultView && !isEditing && edited == EditedProfile("", "", "")
      ensures !updateSuccess && updateError == ""
    {
      loading := true;
      userData := DefaultView;
      isEditing := false;
      edited := EditedProfile("", "", "");
      updateSuccess := false;
      updateError := "";
    }

    /** `handleEditChange`. */
    method EditChange(f: ProfileField, value: string)
      modifies this`edited
      ensures edited == WithField(old(edited), f, value)
    {
      edited := WithField(edited, f, value);
    }

    /**
     * The effect `fetchUserProfile`, for the route's name, the session's user
     * and storage `s`; `remote` is what `getUserProfile` answers. The id the
     * service is asked for, if any, is returned. The spinner always stops.
     */
    method FetchUserProfile(route: Option<string>, user: Option<UserObj>, s: Store, remote: Option<Profile>)
      returns (asked: Option<string>)
      modifies this`loading, this`userData, this`edited
      ensures (userData, edited, asked) == Fetched(route, user, s, remote, old(userData), old(edited))
      ensures !loading
    {
      loading := true;
      var stored := GetStoredUserData(s);
      var token := Truthy(s.token);
      var userId := "";
      if Truthy(route) {
        if stored.Some? && (EqualsIgnoreCase(stored.value.username, route.value) || EqualsIgnoreCase(stored.value.name, route.value)) {
          userId := stored.value.id;
          userData := StoredView(stored.value);
          edited := StoredEdit(stored.value);
        } else {
          userId := route.value;
          if !token {
            userData := Placeholder(route.value);
          }
        }
      } else if user.Some? {
        userId := OrElse(user.value.id, "");
        if Truthy(user.value.name) {
          userData := SessionView(user.value);
          edited := SessionEdit(user.value);
        }
      } else if stored.Some? {
        userId := stored.value.id;
        userData := StoredView(stored.value);
        edited := StoredEdit(stored.value);
      } else {
        // 'No user information available' is thrown and caught at once.
        loading := false;
        return None;
      }
      if !token {
        loading := false;
        return None;
      }
      asked := None;
      if userId != "" {
        asked := Some(userId);
        if remote.Some? {
          userData := ApiView(remote.value, stored, route);
          edited := ApiEdit(remote.value);
        }
      }
      loading := false;
    }

    /**
     * `handleProfileUpdate`: the request sent, if any, with the user id it is
     * for. `saved` says whether `updateUserProfile` answered a profile.
     */
    method HandleProfileUpdate(user: Option<UserObj>, saved: bool) returns (request: Option<(string, EditedProfile)>)
      modifies this`userData, this`updateError, this`updateSuccess, this`isEditing
      ensures !(user.Some? && Truthy(user.value.id)) ==>
        request.None? && updateError == LoginToUpdate && userData == old(userData) &&
        updateSuccess == old(updateSuccess) && isEditing == old(isEditing)
      ensures user.Some? && Truthy(user.value.id) ==>
        request == Some((user.value.id.value, edited)) && userData == Optimistic(old(userData), edited) &&
        (saved ==> updateSuccess && !isEditing && updateError == "") &&
        (!saved ==> updateError == SavedLocallyOnly && updateSuccess == old(updateSuccess) && isEditing == old(isEditing))
    {
      if !(user.Some? && Truthy(user.value.id)) {
        updateError := LoginToUpdate;
        return None;
      }
      updateError := "";
      userData := Optimistic(userData, edited);
      request := Some((user.value.id.value, edited));
      if saved {
        updateSuccess := true;
        isEditing := false;
      } else {
        updateError := SavedLocallyOnly;
      }
    }
  }

  // -------------------------------------------------------------- lemmas

  /** With a route name, the profile is the viewer's own exactly when the stored snapshot or the session's user answers to it, ignoring case. */
  lemma CurrentUserProfileIff(user: UserObj, s: Store, name: string)
    ensures IsCurrentUserProfile(Some(user), s, Some(name)) <==>
      (GetStoredUserData(s).Some? &&
        (EqualsIgnoreCase(GetStoredUserData(s).value.username, name) || EqualsIgnoreCase(GetStoredUserData(s).value.name, name)))
      || (user.username.Some? && EqualsIgnoreCase(user.username.value, name))
      || (user.name.Some? && EqualsIgnoreCase(user.name.value, name))
  {
  }

  /** Without a token the service is never asked. */
  lemma NoTokenNoCall(route: Option<string>, user: Option<UserObj>, s: Store, remote: Option<Profile>, view: ProfileView, edit: EditedProfile)
    requires !Truthy(s.token)
    ensures Fetched(route, user, s, remote, view, edit).2.None?
  {
  }

  /** Another user's page without a token shows the placeholder named after the route. */
  lemma OtherUserWithoutToken(route: string, user: Option<UserObj>, s: Store, remote: Option<Profile>, view: ProfileView, edit: EditedProfile)
    requires route != [] && !Truthy(s.token)
    requires SourceOf(Some(route), user, GetStoredUserData(s)) == OtherUser
    ensures Fetched(Some(route), user, s, remote, view, edit) == (Placeholder(route), edit, None)
  {
  }

  /** With a token and an answer, the name is the service's full name, else the stored name, else the route's; the username the stored one, else the service's user id, else the route's. */
  lemma ServiceFields(route: Option<string>, user: Option<UserObj>, s: Store, p: Profile, view: ProfileView, edit: EditedProfile)
    requires Truthy(s.token) && Fetched(route, user, s, Some(p), view, edit).2.Some?
    ensures var v := Fetched(route, user, s, Some(p), view, edit).0;
      var stored := GetStoredUserData(s);
      v.id == p.userId &&
      (Truthy(p.fullName) ==> v.name == p.fullName.value) &&
      (!Truthy(p.fullName) && stored.Some? && stored.value.name != [] ==> v.name == stored.value.name) &&
      (!Truthy(p.fullName) && (stored.None? || stored.value.name == []) ==> v.name == OrElse(route, "")) &&
      (stored.Some? && stored.value.username != [] ==> v.username == stored.value.username) &&
      ((stored.None? || stored.value.username == []) && p.userId != [] ==> v.username == p.userId)
  {
  }

  /** A service that fails or answers nothing leaves the local data in place. */
  lemma NoAnswerKeepsLocal(route: Option<string>, user: Option<UserObj>, s: Store, view: ProfileView, edit: EditedProfile)
    requires SourceOf(route, user, GetStoredUserData(s)) != NoSource
    ensures var stored := GetStoredUserData(s);
      var local := LocalStep(SourceOf(route, user, stored), route, user, stored, Truthy(s.token), view, edit);
      var r := Fetched(route, user, s, None, view, edit);
      r.0 == local.0 && r.1 == local.1
  {
  }

  /** With nothing to show, the view and form stay as they were and nothing is asked. */
  lemma NoSourceKeepsView(route: Option<string>, s: Store, remote: Option<Profile>, view: ProfileView, edit: EditedProfile)
    requires !Truthy(route) && GetStoredUserData(s).None?
    ensures Fetched(route, None, s, remote, view, edit) == (view, edit, None)
  {
  }

  /** The optimistic update replaces exactly the fields that were filled in, and leaves id and username alone; doing it twice is doing it once. */
  lemma OptimisticKeepsEmptyFields(prev: ProfileView, e: EditedProfile)
    ensures var v := Optimistic(prev, e);
      v.id == prev.id && v.username == prev.username &&
      (e.fullName != [] ==> v.name == e.fullName) && (e.fullName == [] ==> v.name == prev.name) &&
      (e.bio != [] ==> v.bio == e.bio) && (e.bio == [] ==> v.bio == prev.bio) &&
      (e.profilePictureUrl != [] ==> v.profilePicture == e.profilePictureUrl) &&
      (e.profilePictureUrl == [] ==> v.profilePicture == prev.profilePicture)
    ensures Optimistic(Optimistic(prev, e), e) == Optimistic(prev, e)
  {
  }

  // ------------------------------------------------- the username finding

  /** The view of the service's answer as evidently intended: the stored snapshot is consulted only when it is the profile being shown. */
  function IntendedApiView(api: Profile, stored: Option<StoredUserData>, own: bool, route: Option<string>): (v: ProfileView)
    ensures !own && api.userId != [] ==> v.username == api.userId
    ensures own ==> v == ApiView(api, stored, route)
  {
    ApiView(api, if own then stored else None, route)
  }

  /** As written, a logged-in viewer of another user's profile sees their own stored username on it. */
  lemma OtherProfileShowsViewersUsername(s: Store, route: string, p: Profile, view: ProfileView, edit: EditedProfile)
    requires Truthy(s.token) && route != [] && p.userId == route
    requires GetStoredUserData(s).Some? && GetStoredUserData(s).value.username != []
    requires SourceOf(Some(route), None, GetStoredUserData(s)) == OtherUser
    ensures Fetched(Some(route), None, s, Some(p), view, edit).0.username == GetStoredUserData(s).value.username
    ensures GetStoredUserData(s).value.username != IntendedApiView(p, GetStoredUserData(s), false, Some(route)).username
  {
    var d := GetStoredUserData(s).value;
    assert !EqualsIgnoreCase(d.username, route);
  }
}
