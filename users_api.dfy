/**
 * The local-first profile calls of `services/api/users.ts`. The snapshot in
 * storage is consulted before the network; the server's answer is a parameter
 * and `requested` tells whether a request was sent at all.
 */
module UsersApi {
  import opened Wrappers
  import opened Text
  import opened Storage
  import opened UserUtils

  /** `UserProfileApiResponse`. */
  datatype Profile = Profile(id: string, userId: string, bio: Option<string>, profilePictureUrl: Option<string>, fullName: Option<string>)

  /** What an axios call resolves to: data, an empty body, or a rejection. */
  datatype ApiResult<T> = Data(value: T) | Empty | Failed

  /** A stored user stands for `requested` by id, or by username or name ignoring case. */
  function Matches(d: StoredUserData, requested: string): (m: bool)
    ensures d.id == requested || d.username == requested || d.name == requested ==> m
    ensures m && d.id != requested ==> |d.username| == |requested| || |d.name| == |requested|
  {
    d.id == requested || EqualsIgnoreCase(d.username, requested) || EqualsIgnoreCase(d.name, requested)
  }

  /** The profile built from a stored user. */
  function ProfileOf(d: StoredUserData): (p: Profile)
    ensures p.id == d.id && p.userId == d.id && p.fullName == Some(d.name)
    ensures p.bio == Some(OrElse(d.bio, "")) && p.profilePictureUrl == d.profilePictureUrl
  {
    Profile(d.id, d.id, Some(OrElse(d.bio, "")), d.profilePictureUrl, Some(d.name))
  }

  /** `localData`: the stored user's profile when it matches the requested id. */
  function LocalProfile(s: Store, requested: string): (r: Option<Profile>)
    ensures r.Some? <==> GetStoredUserData(s).Some? && Matches(GetStoredUserData(s).value, requested)
    ensures r.Some? ==> r.value == ProfileOf(GetStoredUserData(s).value)
  {
    var stored := GetStoredUserData(s);
    if stored.Some? && Matches(stored.value, requested) then Some(ProfileOf(stored.value)) else None
  }

  /** The minimal profile: id, userId and fullName all the requested id, empty bio and picture. */
  function MinimalProfile(requested: string): (p: Profile)
    ensures p.id == requested && p.userId == requested && p.fullName == Some(requested)
    ensures p.bio == Some("") && p.profilePictureUrl == Some("")
  {
    Profile(requested, requested, Some(""), Some(""), Some(requested))
  }

  /** `getUserProfile(userId)`. */
  method GetUserProfile(ls: LocalStorage, userId: string, api: ApiResult<Profile>) returns (r: Option<Profile>, requested: bool)
    ensures requested <==> Truthy(ls.data.token)
    ensures !Truthy(ls.data.token) ==>
      r == Some(LocalProfile(ls.data, userId).GetOr(MinimalProfile(userId)))
    ensures Truthy(ls.data.token) && api.Data? ==> r == Some(api.value)
    ensures Truthy(ls.data.token) && api.Empty? ==> r == LocalProfile(ls.data, userId)
    ensures Truthy(ls.data.token) && api.Failed? ==>
      r == Some(LocalProfile(ls.data, userId).GetOr(MinimalProfile(userId)))
    ensures r.None? <==> Truthy(ls.data.token) && api.Empty? && LocalProfile(ls.data, userId).None?
  {
    var stored := GetStoredUserData(ls.data);
    var localData: Option<Profile> := None;
    if stored.Some? && Matches(stored.value, userId) {
      localData := Some(ProfileOf(stored.value));
      if !Truthy(ls.data.token) {
        return localData, false;
      }
    }
    if !Truthy(ls.data.token) {
      // A matching local profile was already returned above.
      return Some(MinimalProfile(userId)), false;
    }
    requested := true;
    match api {
      case Data(p) =>
        return Some(p), requested;
      case Failed =>
        if localData.Some? {
          return localData, requested;
        }
        // The rethrown error reaches the outer handler; it reads the same
        // storage again, finds no match either, and answers the minimal profile.
        return Some(MinimalProfile(userId)), requested;
      case Empty =>
    }
    if localData.Some? {
      return localData, requested;
    }
    return None, requested;
  }

  /** `getCurrentUserProfile()`: the profile of the stored user, or null when no id is stored. */
  method GetCurrentUserProfile(ls: LocalStorage, api: ApiResult<Profile>) returns (r: Option<Profile>, requested: bool)
    ensures var stored := GetStoredUserData(ls.data);
      (stored.None? || stored.value.id == []) ==> r.None? && !requested
    ensures var stored := GetStoredUserData(ls.data);
      stored.Some? && stored.value.id != [] ==>
        r.Some? && requested == Truthy(ls.data.token) &&
        (!(requested && api.Data?) ==> r == Some(ProfileOf(stored.value)))
    ensures requested && api.Data? ==> r == Some(api.value)
  {
    var stored := GetStoredUserData(ls.data);
    if stored.None? || stored.value.id == [] {
      return None, false;
    }
    r, requested := GetUserProfile(ls, stored.value.id, api);
  }

  /** `profileData.bio || storedUser.bio`, with both sides optional. */
  function OrOption(a: Option<string>, b: Option<string>): (r: Option<string>)
    ensures Truthy(a) ==> r == a
    ensures !Truthy(a) ==> r == b
  {
    if Truthy(a) then a else b
  }

  /** The optimistic record `updateUserProfile` writes: each non-empty new field replaces the stored one. */
  function UpdatedStored(d: StoredUserData, data: ProfileFields): (u: StoredUserData)
    ensures u.id == d.id && u.username == d.username && u.email == d.email
    ensures u.name == OrElse(data.fullName, d.name)
    ensures u.bio == OrOption(data.bio, d.bio)
    ensures u.profilePictureUrl == OrOption(data.profilePictureUrl, d.profilePictureUrl)
  {
    d.(name := OrElse(data.fullName, d.name),
       bio := OrOption(data.bio, d.bio),
       profilePictureUrl := OrOption(data.profilePictureUrl, d.profilePictureUrl))
  }

  /** The store after the optimistic write, when the snapshot belongs to `userId`. */
  function UpdateStore(s: Store, userId: string, data: ProfileFields): (r: Store)
    ensures r.token == s.token && r.userId == s.userId
  {
    var stored := GetStoredUserData(s);
    if stored.Some? && stored.value.id == userId then
      s.(skillnetUser := Some(Json(ToJson(UpdatedStored(stored.value, data)))))
    else s
  }

  /** `updateUserProfile(userId, profileData)`. */
  method UpdateUserProfile(ls: LocalStorage, userId: string, data: ProfileFields, api: ApiResult<Profile>)
    returns (r: Option<Profile>, requested: bool)
    modifies ls
    ensures ls.data == UpdateStore(old(ls.data), userId, data)
    ensures var stored := GetStoredUserData(old(ls.data));
      var local := if stored.Some? && stored.value.id == userId then Some(ProfileOf(UpdatedStored(stored.value, data))) else None;
      requested == Truthy(old(ls.data).token) &&
      (!requested ==> r == local) &&
      (requested && api.Data? ==> r == Some(api.value)) &&
      (requested && !api.Data? ==> r == local)
  {
    var stored := GetStoredUserData(ls.data);
    var localData: Option<Profile> := None;
    if stored.Some? && stored.value.id == userId {
      var updated := UpdatedStored(stored.value, data);
      ls.data := ls.data.(skillnetUser := Some(Json(ToJson(updated))));
      localData := Some(ProfileOf(updated));
      if !Truthy(ls.data.token) {
        return localData, false;
      }
    } else {
      if !Truthy(ls.data.token) {
        return None, false;
      }
    }
    requested := true;
    match api {
      case Data(p) =>
        r := Some(p);
      case Empty =>
        r := localData;
      case Failed =>
        r := localData;
    }
  }

  // -------------------------------------------------------------- lemmas

  /** A stored user whose id is the one requested is always the local match. */
  lemma OwnIdMatches(s: Store)
    requires GetStoredUserData(s).Some?
    ensures LocalProfile(s, GetStoredUserData(s).value.id) == Some(ProfileOf(GetStoredUserData(s).value))
  {
  }

  /** If the stored username or name matches one spelling of a name, it matches every spelling of it. */
  lemma MatchIgnoresCase(d: StoredUserData, a: string, b: string)
    requires EqualsIgnoreCase(d.username, a) || EqualsIgnoreCase(d.name, a)
    requires EqualsIgnoreCase(a, b)
    ensures Matches(d, b)
  {
  }

  /**
   * Read your writes: after an offline update of the logged-in user's profile,
   * the optimistic record is what storage now holds, and reading the profile
   * back gives exactly the profile the update returned.
   */
  lemma {:induction false} UpdateThenRead(s: Store, data: ProfileFields)
    requires GetStoredUserData(s).Some?
    ensures var d := GetStoredUserData(s).value;
      var after := UpdateStore(s, d.id, data);
      GetStoredUserData(after) == Some(UpdatedStored(d, data)) &&
      LocalProfile(after, d.id) == Some(ProfileOf(UpdatedStored(d, data)))
  {
    var d := GetStoredUserData(s).value;
    var u := UpdatedStored(d, data);
    StoredDataIsStable(s);
    assert u.profilePictureUrl.Some? && u.bio.Some?;
    assert u.username == d.username && u.email == d.email;
    SaveThenGet(s, d);
    SaveThenGet(s, u);
  }

  /** The `||` merge keeps a stored field wherever the new value is empty. */
  lemma EmptyFieldsKeepOldValues(d: StoredUserData)
    ensures UpdatedStored(d, ProfileFields(Some(""), Some(""), Some(""))) == d
    ensures UpdatedStored(d, ProfileFields(None, None, None)) == d
  {
  }
}
