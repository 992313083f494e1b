/**
 * The notification list of `contexts/NotificationContext.tsx`: the unread
 * count, the two read-flag updaters and the effect that loads or clears the
 * list when the user changes.
 */
module Notifications {
  import opened Wrappers
  import opened Seqs

  datatype Kind = Like | Comment | Follow | OtherKind

  datatype FromUser = FromUser(id: string, name: string, username: string, profilePicture: Option<string>)

  /** `Notification`; `createdAt` is an ISO timestamp taken as an uninterpreted string. */
  datatype Notification = Notification(
    id: string,
    kind: Kind,
    read: bool,
    createdAt: string,
    fromUser: FromUser,
    contentId: Option<string>,
    contentType: Option<string>,
    content: Option<string>)

  predicate IsUnread(n: Notification) {
    !n.read
  }

  /** `unreadCount`: the length of the unread filter. */
  function UnreadCount(ns: seq<Notification>): (c: nat)
    ensures c <= |ns|
  {
    |Filter(ns, IsUnread)|
  }

  /** The updater of `markAsRead(id)`: the entries with that id become read. */
  function MarkAsRead(ns: seq<Notification>, id: string): (r: seq<Notification>)
    ensures |r| == |ns|
    ensures forall i :: 0 <= i < |ns| && ns[i].id == id ==> r[i] == ns[i].(read := true)
    ensures forall i :: 0 <= i < |ns| && ns[i].id != id ==> r[i] == ns[i]
  {
    if ns == [] then []
    else [if ns[0].id == id then ns[0].(read := true) else ns[0]] + MarkAsRead(ns[1..], id)
  }

  /** The updater of `markAllAsRead`: every entry becomes read, nothing else changes. */
  function MarkAllAsRead(ns: seq<Notification>): (r: seq<Notification>)
    ensures |r| == |ns|
    ensures forall i :: 0 <= i < |ns| ==> r[i] == ns[i].(read := true)
  {
    if ns == [] then [] else [ns[0].(read := true)] + MarkAllAsRead(ns[1..])
  }

  /** The avatars of the mock notifications' senders. */
  const EmmaAvatar: string := "https://images.pexels.com/photos/774909/pexels-photo-774909.jpeg?auto=compress&cs=tinysrgb&w=100"
  const MikeAvatar: string := "https://images.pexels.com/photos/220453/pexels-photo-220453.jpeg?auto=compress&cs=tinysrgb&w=100"
  const SaraAvatar: string := "https://images.pexels.com/photos/1542085/pexels-photo-1542085.jpeg?auto=compress&cs=tinysrgb&w=100"

  /** The three mock entries; their timestamps depend on the clock and are parameters. */
  function MockNotifications(at1: string, at2: string, at3: string): (ns: seq<Notification>)
    ensures |ns| == 3
  {
    [ Notification("1", Like, false, at1,
        FromUser("2", "Emma Wilson", "emmaw", Some(EmmaAvatar)),
        Some("post-1"), Some("post"), Some("Your Algebra Shortcuts post")),
      Notification("2", Comment, false, at2,
        FromUser("3", "Mike Chen", "mikechen", Some(MikeAvatar)),
        Some("post-2"), Some("post"), Some("Great explanation of photosynthesis!")),
      Notification("3", Follow, true, at3,
        FromUser("4", "Sara Lopez", "saral", Some(SaraAvatar)),
        None, None, None) ]
  }

  /** The list and the loading flag once the effect on `user` has settled (the mock delay is not modelled). */
  datatype Loaded = Loaded(notifications: seq<Notification>, loading: bool)

  function AfterUserChange(loggedIn: bool, mock: seq<Notification>): (r: Loaded)
    ensures !r.loading
    ensures !loggedIn ==> r.notifications == []
    ensures loggedIn ==> r.notifications == mock
  {
    if loggedIn then Loaded(mock, false) else Loaded([], false)
  }

  /** The number of unread entries carrying `id`. */
  function UnreadWithId(ns: seq<Notification>, id: string): nat {
    if ns == [] then 0 else (if !ns[0].read && ns[0].id == id then 1 else 0) + UnreadWithId(ns[1..], id)
  }

  // -------------------------------------------------------------- lemmas

  /** `unreadCount` counts exactly the entries whose `read` flag is false. */
  lemma {:induction false} UnreadCountCounts(ns: seq<Notification>)
    ensures UnreadCount(ns) == |ns| - |Filter(ns, (n: Notification) => n.read)|
  {
    if ns != [] {
      UnreadCountCounts(ns[1..]);
      assert Filter(ns, IsUnread) == (if !ns[0].read then [ns[0]] else []) + Filter(ns[1..], IsUnread);
    }
  }

  /** Marking one id lowers the count by the number of unread entries with that id. */
  lemma {:induction false} MarkAsReadCount(ns: seq<Notification>, id: string)
    ensures UnreadCount(MarkAsRead(ns, id)) == UnreadCount(ns) - UnreadWithId(ns, id)
  {
    if ns != [] {
      MarkAsReadCount(ns[1..], id);
      var r := MarkAsRead(ns, id);
      assert r[1..] == MarkAsRead(ns[1..], id);
      assert Filter(r, IsUnread) == (if !r[0].read then [r[0]] else []) + Filter(r[1..], IsUnread);
      assert Filter(ns, IsUnread) == (if !ns[0].read then [ns[0]] else []) + Filter(ns[1..], IsUnread);
    }
  }

  /** An id no entry carries changes nothing. */
  lemma UnknownIdUnchanged(ns: seq<Notification>, id: string)
    requires forall i :: 0 <= i < |ns| ==> ns[i].id != id
    ensures MarkAsRead(ns, id) == ns
  {
  }

  /** After `markAsRead(id)` no entry with that id is unread. */
  lemma {:induction false} MarkedIdIsRead(ns: seq<Notification>, id: string)
    ensures UnreadWithId(MarkAsRead(ns, id), id) == 0
  {
    if ns != [] {
      MarkedIdIsRead(ns[1..], id);
      assert MarkAsRead(ns, id)[1..] == MarkAsRead(ns[1..], id);
    }
  }

  /** Both updaters are idempotent, and marking one id commutes with marking another. */
  lemma MarkAsReadIdempotent(ns: seq<Notification>, id: string)
    ensures MarkAsRead(MarkAsRead(ns, id), id) == MarkAsRead(ns, id)
  {
  }

  lemma MarkAllAsReadIdempotent(ns: seq<Notification>)
    ensures MarkAllAsRead(MarkAllAsRead(ns)) == MarkAllAsRead(ns)
  {
  }

  lemma MarkAsReadCommutes(ns: seq<Notification>, a: string, b: string)
    ensures MarkAsRead(MarkAsRead(ns, a), b) == MarkAsRead(MarkAsRead(ns, b), a)
  {
  }

  /** Marking everything absorbs any earlier single mark. */
  lemma MarkAllAbsorbs(ns: seq<Notification>, id: string)
    ensures MarkAllAsRead(MarkAsRead(ns, id)) == MarkAllAsRead(ns)
  {
  }

  /** `markAllAsRead` brings the count to zero. */
  lemma {:induction false} MarkAllClearsCount(ns: seq<Notification>)
    ensures UnreadCount(MarkAllAsRead(ns)) == 0
  {
    if ns != [] {
      MarkAllClearsCount(ns[1..]);
      var r := MarkAllAsRead(ns);
      assert r[1..] == MarkAllAsRead(ns[1..]);
      assert Filter(r, IsUnread) == Filter(r[1..], IsUnread);
    }
  }

  /** The logged-out reset leaves nothing to count. */
  lemma LoggedOutCountsZero(mock: seq<Notification>)
    ensures UnreadCount(AfterUserChange(false, mock).notifications) == 0
  {
  }
}
