/**
 * `service/Impl/UserServiceImpl.java`: the user found or created at an
 * OAuth login, and the one profile a user may have. Users are found by
 * email and profiles by owner; `freshId` stands for `UUID.randomUUID()`.
 */
module UserService {
  import opened Wrappers
  import opened Seqs
  import opened Documents

  /** `entity/User.java`. */
  datatype User = User(id: string, email: string, name: string, oauthProvider: string, oauthId: string)

  /** `entity/UserProfile.java`; every field but the two ids may be null. */
  datatype UserProfile = UserProfile(id: string, userId: string, bio: Option<string>,
                                     profilePictureUrl: Option<string>, fullName: Option<string>)

  /** `dto/UserDTO.java` as the login fills it: its `username` and `profilePicture` stay null. */
  datatype UserDto = UserDto(id: string, email: string, name: string)

  /** `dto/UserProfileDTO.java`. */
  datatype ProfileDto = ProfileDto(id: string, userId: string, bio: Option<string>, profilePictureUrl: Option<string>)

  datatype Result<T> = Ok(value: T) | Err(message: string)

  const ProfileNotFound := "Profile not found"

  function UserId(u: User): string { u.id }
  function UserEmail(u: User): string { u.email }
  function ProfileId(p: UserProfile): string { p.id }
  function ProfileOwner(p: UserProfile): string { p.userId }

  function DtoOf(u: User): (d: UserDto)
    ensures d.id == u.id && d.email == u.email && d.name == u.name
  {
    UserDto(u.id, u.email, u.name)
  }

  function ProfileDtoOf(p: UserProfile): (d: ProfileDto)
    ensures d.id == p.id && d.userId == p.userId && d.bio == p.bio && d.profilePictureUrl == p.profilePictureUrl
  {
    ProfileDto(p.id, p.userId, p.bio, p.profilePictureUrl)
  }

  /**
   * `handleOAuthLogin`: the user with that email, or a new one saved with
   * `freshId` and the login's details; the answer is the user's DTO.
   */
  function Login(users: seq<User>, email: string, name: string, provider: string, oauthId: string, freshId: string): (r: (seq<User>, UserDto))
    ensures Lookup(users, email, UserEmail).Some? ==> r.0 == users && r.1 == DtoOf(Lookup(users, email, UserEmail).value)
    ensures Lookup(users, email, UserEmail).None? && Lookup(users, freshId, UserId).None? ==>
      r.0 == users + [User(freshId, email, name, provider, oauthId)] && r.1 == UserDto(freshId, email, name)
  {
    match Lookup(users, email, UserEmail)
    case Some(u) => (users, DtoOf(u))
    case None =>
      var u := User(freshId, email, name, provider, oauthId);
      (Saved(users, u, UserId), DtoOf(u))
  }

  /** The profile `createOrUpdateProfile` saves: the user's own, or a new one under `freshId`, with the new bio and picture. */
  function Upserted(profiles: seq<UserProfile>, userId: string, bio: Option<string>, pictureUrl: Option<string>, freshId: string): (p: UserProfile)
    ensures p.userId == userId && p.bio == bio && p.profilePictureUrl == pictureUrl
    ensures Lookup(profiles, userId, ProfileOwner).Some? ==>
      p.id == Lookup(profiles, userId, ProfileOwner).value.id && p.fullName == Lookup(profiles, userId, ProfileOwner).value.fullName
    ensures Lookup(profiles, userId, ProfileOwner).None? ==> p.id == freshId && p.fullName.None?
  {
    var existing := Lookup(profiles, userId, ProfileOwner);
    var p := if existing.Some? then existing.value else UserProfile(freshId, userId, None, None, None);
    p.(bio := bio, profilePictureUrl := pictureUrl)
  }

  /** `getProfile(userId)`. */
  function ProfileOf(profiles: seq<UserProfile>, userId: string): (r: Result<ProfileDto>)
    ensures r.Err? <==> forall i :: 0 <= i < |profiles| ==> profiles[i].userId != userId
    ensures r.Err? ==> r.message == ProfileNotFound
    ensures r.Ok? ==> r.value.userId == userId && exists p :: p in profiles && r.value == ProfileDtoOf(p)
  {
    match Lookup(profiles, userId, ProfileOwner)
    case None => Err(ProfileNotFound)
    case Some(p) => Ok(ProfileDtoOf(p))
  }

  /** No two stored profiles share an owner: a user has at most one profile. */
  predicate OneProfilePerUser(profiles: seq<UserProfile>) {
    DistinctKeys(profiles, ProfileOwner)
  }

  class UserStore {
    /** The `users` collection. */
    var users: seq<User>
    /** The `user_profiles` collection. */
    var profiles: seq<UserProfile>

    predicate Valid()
      reads this
    {
      DistinctKeys(users, UserId) && DistinctKeys(users, UserEmail) &&
      DistinctKeys(profiles, ProfileId) && OneProfilePerUser(profiles)
    }

    constructor ()
      ensures Valid() && users == [] && profiles == []
    {
      users := [];
      profiles := [];
    }

    method HandleOAuthLogin(email: string, name: string, provider: string, oauthId: string, freshId: string) returns (dto: UserDto)
      requires Valid() && Lookup(users, freshId, UserId).None?
      modifies this
      ensures Valid() && profiles == old(profiles)
      ensures (users, dto) == Login(old(users), email, name, provider, oauthId, freshId)
    {
      var found := Lookup(users, email, UserEmail);
      if found.Some? {
        return DtoOf(found.value);
      }
      var u := User(freshId, email, name, provider, oauthId);
      NewKeyAppended(users, u, UserId);
      users := Saved(users, u, UserId);
      AppendedKeepsKeysDistinct(old(users), u, UserEmail);
      return DtoOf(u);
    }

    /** `createOrUpdateProfile(userId, profileDTO)`: the answer mirrors the saved profile. */
    method CreateOrUpdateProfile(userId: string, bio: Option<string>, pictureUrl: Option<string>, freshId: string) returns (dto: ProfileDto)
      requires Valid() && Lookup(profiles, freshId, ProfileId).None?
      modifies this
      ensures Valid() && users == old(users)
      ensures var p := Upserted(old(profiles), userId, bio, pictureUrl, freshId);
        profiles == Saved(old(profiles), p, ProfileId) && dto == ProfileDtoOf(p)
    {
      var p := Upserted(profiles, userId, bio, pictureUrl, freshId);
      UpsertKeepsOwnersDistinct(profiles, userId, bio, pictureUrl, freshId);
      SavedKeepsKeysDistinct(profiles, p, ProfileId);
      profiles := Saved(profiles, p, ProfileId);
      return ProfileDtoOf(p);
    }

    method GetProfile(userId: string) returns (r: Result<ProfileDto>)
      ensures r == ProfileOf(profiles, userId)
    {
      var found := Lookup(profiles, userId, ProfileOwner);
      if found.None? {
        return Err(ProfileNotFound);
      }
      return Ok(ProfileDtoOf(found.value));
    }
  }

  // -------------------------------------------------------------- lemmas

  /** Saving a document under an id not yet stored adds it at the end. */
  lemma NewKeyAppended<T>(docs: seq<T>, d: T, key: T -> string)
    requires Lookup(docs, key(d), key).None?
    ensures Saved(docs, d, key) == docs + [d]
  {
  }

  /** Adding a document with a new key keeps a key distinct. */
  lemma AppendedKeepsKeysDistinct<T>(docs: seq<T>, d: T, key: T -> string)
    requires DistinctKeys(docs, key) && Lookup(docs, key(d), key).None?
    ensures DistinctKeys(docs + [d], key)
  {
    var r := docs + [d];
    forall i, j | 0 <= i < j < |r| ensures key(r[i]) != key(r[j]) {
      if j == |docs| {
        assert r[i] == docs[i];
      } else {
        assert r[i] == docs[i] && r[j] == docs[j];
      }
    }
  }

  /**
   * Logging in again with the same email, whatever the name, provider or
   * fresh id, creates nothing and answers the same user.
   */
  lemma LoginIdempotent(users: seq<User>, email: string, name: string, provider: string, oauthId: string, freshId: string,
                        name': string, provider': string, oauthId': string, freshId': string)
    requires DistinctKeys(users, UserEmail) && Lookup(users, freshId, UserId).None?
    ensures var (once, dto) := Login(users, email, name, provider, oauthId, freshId);
      Login(once, email, name', provider', oauthId', freshId') == (once, dto)
  {
    var (once, dto) := Login(users, email, name, provider, oauthId, freshId);
    if Lookup(users, email, UserEmail).None? {
      var u := User(freshId, email, name, provider, oauthId);
      assert once == users + [u];
      FirstIndexIs(once, HasKey(UserEmail, email), |users|);
    }
  }

  /** A login never removes or alters a stored user. */
  lemma LoginKeepsUsers(users: seq<User>, email: string, name: string, provider: string, oauthId: string, freshId: string)
    requires Lookup(users, freshId, UserId).None?
    ensures var after := Login(users, email, name, provider, oauthId, freshId).0;
      after[..|users|] == users && |after| <= |users| + 1
  {
  }

  /** The upsert keeps every owner distinct: an existing profile is updated in place, a new one has a new owner. */
  lemma UpsertKeepsOwnersDistinct(profiles: seq<UserProfile>, userId: string, bio: Option<string>, pictureUrl: Option<string>, freshId: string)
    requires DistinctKeys(profiles, ProfileId) && OneProfilePerUser(profiles) && Lookup(profiles, freshId, ProfileId).None?
    ensures OneProfilePerUser(Saved(profiles, Upserted(profiles, userId, bio, pictureUrl, freshId), ProfileId))
  {
    var p := Upserted(profiles, userId, bio, pictureUrl, freshId);
    var r := Saved(profiles, p, ProfileId);
    var k := FindIndex(profiles, HasKey(ProfileOwner, userId));
    if k >= 0 {
      var m := FindIndex(profiles, HasKey(ProfileId, p.id));
      assert m == k;
      assert r == profiles[k := p];
      forall i, j | 0 <= i < j < |r| ensures r[i].userId != r[j].userId {
        if i != k && j != k {
          assert r[i] == profiles[i] && r[j] == profiles[j];
        }
      }
    } else {
      NewKeyAppended(profiles, p, ProfileId);
      AppendedKeepsKeysDistinct(profiles, p, ProfileOwner);
    }
  }

  /** After the upsert the user's profile reads back with the new bio and picture; its id and full name are kept. */
  lemma UpsertThenGet(profiles: seq<UserProfile>, userId: string, bio: Option<string>, pictureUrl: Option<string>, freshId: string)
    requires DistinctKeys(profiles, ProfileId) && OneProfilePerUser(profiles) && Lookup(profiles, freshId, ProfileId).None?
    ensures var p := Upserted(profiles, userId, bio, pictureUrl, freshId);
      var after := Saved(profiles, p, ProfileId);
      ProfileOf(after, userId) == Ok(ProfileDto(p.id, userId, bio, pictureUrl)) &&
      Lookup(after, userId, ProfileOwner) == Some(p)
  {
    var p := Upserted(profiles, userId, bio, pictureUrl, freshId);
    var after := Saved(profiles, p, ProfileId);
    UpsertKeepsOwnersDistinct(profiles, userId, bio, pictureUrl, freshId);
    var k := FindIndex(after, HasKey(ProfileId, p.id));
    assert after[k] == p;
    var m := FindIndex(after, HasKey(ProfileOwner, userId));
    assert m == k;
  }

  /** Upserting the same bio and picture twice is the same as once. */
  lemma UpsertIdempotent(profiles: seq<UserProfile>, userId: string, bio: Option<string>, pictureUrl: Option<string>, freshId: string, freshId': string)
    requires DistinctKeys(profiles, ProfileId) && OneProfilePerUser(profiles) && Lookup(profiles, freshId, ProfileId).None?
    ensures var once := Saved(profiles, Upserted(profiles, userId, bio, pictureUrl, freshId), ProfileId);
      Saved(once, Upserted(once, userId, bio, pictureUrl, freshId'), ProfileId) == once
  {
    var p := Upserted(profiles, userId, bio, pictureUrl, freshId);
    var once := Saved(profiles, p, ProfileId);
    UpsertThenGet(profiles, userId, bio, pictureUrl, freshId);
    var k := FindIndex(once, HasKey(ProfileId, p.id));
    assert once[k := p] == once;
  }

  /** A user without a profile gets "Profile not found"; another user's upsert does not change that. */
  lemma OthersUpsertLeavesNoProfile(profiles: seq<UserProfile>, userId: string, other: string, bio: Option<string>, pictureUrl: Option<string>, freshId: string)
    requires DistinctKeys(profiles, ProfileId) && OneProfilePerUser(profiles) && Lookup(profiles, freshId, ProfileId).None?
    requires ProfileOf(profiles, userId).Err? && other != userId
    ensures ProfileOf(Saved(profiles, Upserted(profiles, other, bio, pictureUrl, freshId), ProfileId), userId) == Err(ProfileNotFound)
  {
    var p := Upserted(profiles, other, bio, pictureUrl, freshId);
    var after := Saved(profiles, p, ProfileId);
    forall i | 0 <= i < |after| ensures after[i].userId != userId {
      if after[i] != p {
        assert after[i] in profiles;
      }
    }
  }
}
