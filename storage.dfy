/**
 * The browser's `localStorage`, restricted to the keys the client uses.
 *
 * Values are strings in the browser. The keys that hold JSON (`skillnet_user`
 * and `user`) are modelled by what parsing their text yields: a JSON object
 * (`Json`) or text that does not parse (`Garbled`). A JSON object is a
 * `UserObj` whose absent (or `null`) fields are `None`; `JSON.stringify`
 * drops `undefined` fields, which is the same `None`.
 */
module Storage {
  import opened Wrappers

  /** A user-shaped JSON object, as written to or parsed from storage. */
  datatype UserObj = UserObj(
    id: Option<string>,
    name: Option<string>,
    username: Option<string>,
    email: Option<string>,
    profilePictureUrl: Option<string>,
    bio: Option<string>,
    profilePicture: Option<string>,
    skills: Option<seq<string>>)

  /** A user object with only the four identity fields set. */
  function Identity(id: string, name: string, email: string, username: string): (u: UserObj)
    ensures u.id == Some(id) && u.name == Some(name) && u.email == Some(email) && u.username == Some(username)
    ensures u.profilePictureUrl.None? && u.bio.None? && u.profilePicture.None? && u.skills.None?
  {
    UserObj(Some(id), Some(name), Some(username), Some(email), None, None, None, None)
  }

  /** What `JSON.parse` makes of a stored JSON text. */
  datatype Snapshot = Json(obj: UserObj) | Garbled(text: string)

  /** `if (localStorage.getItem(key))`: the key holds a non-empty text (JSON text is never empty). */
  predicate Present(v: Option<Snapshot>) {
    v.Some? && v.value != Garbled([])
  }

  /** The keys of `localStorage` the client reads and writes. */
  datatype Store = Store(
    token: Option<string>,          // 'token'
    userId: Option<string>,         // 'userId'
    skillnetUser: Option<Snapshot>, // 'skillnet_user'
    theme: Option<string>,          // 'skillnet_theme'
    authToken: Option<string>,      // 'authToken'
    refreshToken: Option<string>,   // 'refreshToken'
    planUser: Option<Snapshot>)     // 'user'

  function EmptyStore(): Store {
    Store(None, None, None, None, None, None, None)
  }

  /** `String(v)`, which `setItem` applies to its value: `undefined` becomes the text "undefined". */
  function StringOf(v: Option<string>): (r: string)
    ensures v.Some? ==> r == v.value
    ensures v.None? ==> r == "undefined"
  {
    if v.Some? then v.value else "undefined"
  }

  /** The one storage area of the browser tab, shared by every component. */
  class LocalStorage {
    var data: Store

    constructor (init: Store)
      ensures data == init
    {
      data := init;
    }
  }
}
