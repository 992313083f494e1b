/** The `skillnet_user` snapshot helpers of `utils/userUtils.ts`. */
module UserUtils {
  import opened Wrappers
  import opened Text
  import opened Storage

  /** `StoredUserData`: the normalised snapshot; the two optional fields may be absent. */
  datatype StoredUserData = StoredUserData(
    id: string,
    name: string,
    username: string,
    email: string,
    profilePictureUrl: Option<string>,
    bio: Option<string>)

  /** `JSON.stringify(userData)`: absent optional fields are left out of the object. */
  function ToJson(d: StoredUserData): (o: UserObj)
    ensures o.id == Some(d.id) && o.name == Some(d.name) && o.username == Some(d.username)
    ensures o.email == Some(d.email) && o.profilePictureUrl == d.profilePictureUrl && o.bio == d.bio
  {
    UserObj(Some(d.id), Some(d.name), Some(d.username), Some(d.email), d.profilePictureUrl, d.bio, None, None)
  }

  /** `parsed.username || parsed.email?.split('@')?.[0] || ''`. */
  function UsernameOf(username: Option<string>, email: Option<string>): (r: string)
    ensures Truthy(username) ==> r == username.value
    ensures !Truthy(username) && email.Some? ==> r == BeforeAt(email.value)
    ensures !Truthy(username) && email.None? ==> r == []
  {
    if Truthy(username) then username.value
    else if email.Some? then BeforeAt(email.value)
    else []
  }

  /** Normalisation of a parsed snapshot: every missing field defaults to ''. */
  function Normalise(p: UserObj): (d: StoredUserData)
    ensures d.profilePictureUrl.Some? && d.bio.Some?
  {
    StoredUserData(
      OrElse(p.id, ""),
      OrElse(p.name, ""),
      UsernameOf(p.username, p.email),
      OrElse(p.email, ""),
      Some(OrElse(p.profilePictureUrl, "")),
      Some(OrElse(p.bio, "")))
  }

  /**
   * `getStoredUserData`: null when the key is absent, empty or does not parse;
   * otherwise the parsed object normalised. It never throws.
   */
  function GetStoredUserData(s: Store): (r: Option<StoredUserData>)
    ensures r.Some? <==> s.skillnetUser.Some? && s.skillnetUser.value.Json?
    ensures r.Some? ==> r.value == Normalise(s.skillnetUser.value.obj)
  {
    if !Present(s.skillnetUser) then None
    else match s.skillnetUser.value
      case Json(p) => Some(Normalise(p))
      case Garbled(_) => None
  }

  /** `saveUserData`: writes the snapshot and touches no other key. */
  method SaveUserData(ls: LocalStorage, d: StoredUserData)
    modifies ls
    ensures ls.data == old(ls.data).(skillnetUser := Some(Json(ToJson(d))))
  {
    ls.data := ls.data.(skillnetUser := Some(Json(ToJson(d))));
  }

  /** `clearUserData`: removes only `skillnet_user`. */
  method ClearUserData(ls: LocalStorage)
    modifies ls
    ensures ls.data == old(ls.data).(skillnetUser := None)
  {
    ls.data := ls.data.(skillnetUser := None);
  }

  /** `isUserLoggedIn`: a token is present and the snapshot parses. */
  function IsUserLoggedIn(s: Store): (b: bool)
    ensures b <==> Truthy(s.token) && s.skillnetUser.Some? && s.skillnetUser.value.Json?
  {
    Truthy(s.token) && GetStoredUserData(s).Some?
  }

  /**
   * Saving and reading back gives the same record exactly when nothing gets
   * defaulted on the way: the optional fields are present, and an empty
   * username is not replaced by a non-empty email prefix.
   */
  lemma SaveThenGet(s: Store, d: StoredUserData)
    ensures var back := GetStoredUserData(s.(skillnetUser := Some(Json(ToJson(d)))));
      back == Some(d) <==>
        d.profilePictureUrl.Some? && d.bio.Some? && (d.username != [] || BeforeAt(d.email) == [])
  {
  }

  /** A record read from storage is a fixed point: saving it and reading again changes nothing. */
  lemma StoredDataIsStable(s: Store)
    requires GetStoredUserData(s).Some?
    ensures var d := GetStoredUserData(s).value;
      GetStoredUserData(s.(skillnetUser := Some(Json(ToJson(d))))) == Some(d)
  {
    var d := GetStoredUserData(s).value;
    var p := s.skillnetUser.value.obj;
    if d.username == [] {
      assert !Truthy(p.username);
      if p.email.Some? {
        assert BeforeAt(p.email.value) == [];
        assert BeforeAt(d.email) == [];
      }
    }
    SaveThenGet(s, d);
  }

  /** The user half of `mergeUserWithProfile`. */
  datatype BasicUser = BasicUser(id: string, name: Option<string>, email: Option<string>, username: Option<string>)

  /** The profile half of `mergeUserWithProfile`. */
  datatype ProfileFields = ProfileFields(bio: Option<string>, profilePictureUrl: Option<string>, fullName: Option<string>)

  /**
   * `mergeUserWithProfile`: identity from the user (name preferring the
   * profile's full name), picture and bio only from the profile.
   */
  function MergeUserWithProfile(user: BasicUser, profile: ProfileFields): (d: StoredUserData)
    ensures d.id == user.id
    ensures d.name == (if Truthy(profile.fullName) then profile.fullName.value else OrElse(user.name, ""))
    ensures d.username == UsernameOf(user.username, user.email)
    ensures d.email == OrElse(user.email, "")
    ensures d.profilePictureUrl == Some(OrElse(profile.profilePictureUrl, ""))
    ensures d.bio == Some(OrElse(profile.bio, ""))
  {
    StoredUserData(
      user.id,
      OrElse(profile.fullName, OrElse(user.name, "")),
      UsernameOf(user.username, user.email),
      OrElse(user.email, ""),
      Some(OrElse(profile.profilePictureUrl, "")),
      Some(OrElse(profile.bio, "")))
  }

  /** A merged record survives a save and a read unchanged. */
  lemma MergedRoundTrip(s: Store, user: BasicUser, profile: ProfileFields)
    ensures var d := MergeUserWithProfile(user, profile);
      GetStoredUserData(s.(skillnetUser := Some(Json(ToJson(d))))) == Some(d)
  {
    var d := MergeUserWithProfile(user, profile);
    if d.username == [] && user.email.Some? {
      assert BeforeAt(user.email.value) == [];
    }
    SaveThenGet(s, d);
  }
}
