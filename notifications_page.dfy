/**
 * The list logic of `pages/NotificationsPage.tsx`: the all/unread filter,
 * the `reduce` that groups notifications by day into an object, and the
 * per-type message. `day` stands for `new Date(createdAt).toDateString()`.
 */
module NotificationsPage {
  import opened Storage
  import opened Seqs
  import opened Notifications

  datatype ViewFilter = All | UnreadOnly

  /** `filteredNotifications`. */
  function Filtered(ns: seq<Notification>, f: ViewFilter): (r: seq<Notification>)
    ensures f == All ==> r == ns
    ensures f == UnreadOnly ==> |r| == UnreadCount(ns)
    ensures forall i :: 0 <= i < |r| ==> r[i] in ns
  {
    if f == All then ns else Filter(ns, IsUnread)
  }

  /**
   * The accumulator object: its keys in insertion order (the order
   * `Object.entries` lists them, since no date string is an integer) and the
   * array stored under each key.
   */
  datatype Groups = Groups(keys: seq<string>, table: map<string, seq<Notification>>)

  /** One step of the reducer: create the day's array if needed, then push. */
  function AddToGroups(g: Groups, key: string, n: Notification): Groups {
    if key in g.table then Groups(g.keys, g.table[key := g.table[key] + [n]])
    else Groups(g.keys + [key], g.table[key := [n]])
  }

  /** The reduce, as a left fold. */
  function GroupSpec(ns: seq<Notification>, day: string -> string): (g: Groups)
    ensures |g.keys| <= |ns|
    ensures forall i :: 0 <= i < |ns| ==> day(ns[i].createdAt) in g.table
    ensures forall k :: k in g.table ==> g.table[k] != []
    decreases |ns|
  {
    if ns == [] then Groups([], map[])
    else AddToGroups(GroupSpec(ns[..|ns| - 1], day), day(ns[|ns| - 1].createdAt), ns[|ns| - 1])
  }

  /** `groupedNotifications`, computed the way the reducer does, one push at a time. */
  method GroupByDay(ns: seq<Notification>, day: string -> string) returns (g: Groups)
    ensures g == GroupSpec(ns, day)
  {
    var keys: seq<string> := [];
    var table: map<string, seq<Notification>> := map[];
    var i := 0;
    while i < |ns|
      invariant 0 <= i <= |ns|
      invariant Groups(keys, table) == GroupSpec(ns[..i], day)
    {
      ghost var before := Groups(keys, table);
      var date := day(ns[i].createdAt);
      if date !in table {
        table := table[date := []];
        keys := keys + [date];
      }
      table := table[date := table[date] + [ns[i]]];
      if date !in before.table {
        assert table[date] == [ns[i]];
        assert forall k :: k in table <==> k in before.table || k == date;
        assert forall k :: k in before.table ==> table[k] == before.table[k];
        assert table == before.table[date := [ns[i]]];
      }
      assert ns[..i + 1][..i] == ns[..i];
      assert Groups(keys, table) == AddToGroups(before, date, ns[i]);
      i := i + 1;
    }
    assert ns[..i] == ns;
    g := Groups(keys, table);
  }

  /** The selector of the notifications whose day is `k`. */
  function OnDay(day: string -> string, k: string): Notification -> bool {
    (n: Notification) => day(n.createdAt) == k
  }

  /** The keys are distinct and are exactly the table's keys. */
  ghost predicate KeysMatchTable(g: Groups) {
    (forall i, j :: 0 <= i < j < |g.keys| ==> g.keys[i] != g.keys[j]) &&
    (forall k :: k in g.table <==> k in g.keys)
  }

  /** The empty state shows iff the object has no keys. */
  predicate ShowsEmptyState(g: Groups) {
    |g.keys| == 0
  }

  /** The hint under "No notifications to show". */
  function EmptyStateHint(f: ViewFilter): (s: string)
    ensures f == UnreadOnly <==> s == "You have read all your notifications"
  {
    if f == UnreadOnly then "You have read all your notifications" else "You have no notifications yet"
  }

  /** The message half of `getNotificationDetails`; a missing `contentType` is printed as "undefined". */
  function Message(n: Notification): (s: string)
    ensures s != []
  {
    match n.kind
    case Like => "liked your " + StringOf(n.contentType)
    case Comment => "commented on your " + StringOf(n.contentType)
    case Follow => "started following you"
    case OtherKind => "sent you a notification"
  }

  // -------------------------------------------------------------- lemmas

  /** The 'unread' filter keeps exactly the unread entries, in order. */
  lemma UnreadFilterExact(ns: seq<Notification>)
    ensures var r := Filtered(ns, UnreadOnly);
      IsSubsequence(r, ns) && (forall i :: 0 <= i < |r| ==> !r[i].read) &&
      (forall i :: 0 <= i < |ns| && !ns[i].read ==> ns[i] in r)
  {
    FilterIsSubsequence(ns, IsUnread);
  }

  lemma {:induction false} FilterSingle(x: Notification, p: Notification -> bool)
    ensures Filter([x], p) == if p(x) then [x] else []
  {
    assert [x][1..] == [];
  }

  /** The reducer keeps the keys distinct, in step with the table, and never leaves an empty array. */
  lemma {:induction false} GroupsWellFormed(ns: seq<Notification>, day: string -> string)
    ensures KeysMatchTable(GroupSpec(ns, day))
    ensures forall k :: k in GroupSpec(ns, day).table ==> GroupSpec(ns, day).table[k] != []
    decreases |ns|
  {
    if ns != [] {
      GroupsWellFormed(ns[..|ns| - 1], day);
    }
  }

  /** Each day's array holds exactly that day's notifications in their original order; a day with none has no key. */
  lemma {:induction false} GroupsHoldTheirDay(ns: seq<Notification>, day: string -> string, k: string)
    ensures var g := GroupSpec(ns, day);
      (k in g.table ==> g.table[k] == Filter(ns, OnDay(day, k))) &&
      (k !in g.table ==> Filter(ns, OnDay(day, k)) == [])
    decreases |ns|
  {
    if ns != [] {
      var m := |ns| - 1;
      var front := ns[..m];
      var x := ns[m];
      assert ns == front + [x];
      GroupsHoldTheirDay(front, day, k);
      FilterConcat(front, [x], OnDay(day, k));
      FilterSingle(x, OnDay(day, k));
    }
  }

  /**
   * Grouping puts every notification into the group of its day and nowhere
   * else: each group holds exactly the notifications of its day, in their
   * original order, no group is empty, and the keys are distinct.
   */
  lemma {:induction false} GroupsPartitionByDay(ns: seq<Notification>, day: string -> string)
    ensures var g := GroupSpec(ns, day);
      KeysMatchTable(g) &&
      (forall k :: k in g.table ==> g.table[k] == Filter(ns, OnDay(day, k)) && g.table[k] != []) &&
      (forall i :: 0 <= i < |ns| ==> day(ns[i].createdAt) in g.table)
  {
    var g := GroupSpec(ns, day);
    GroupsWellFormed(ns, day);
    forall k | k in g.table
      ensures g.table[k] == Filter(ns, OnDay(day, k))
    {
      GroupsHoldTheirDay(ns, day, k);
    }
    forall i | 0 <= i < |ns|
      ensures day(ns[i].createdAt) in g.table
    {
      var k := day(ns[i].createdAt);
      GroupsHoldTheirDay(ns, day, k);
      assert OnDay(day, k)(ns[i]);
      assert ns[i] in Filter(ns, OnDay(day, k));
    }
  }

  /** No notifications, no groups: the empty state shows exactly when the filtered list is empty. */
  lemma {:induction false} EmptyStateIffNothingFiltered(ns: seq<Notification>, f: ViewFilter, day: string -> string)
    ensures ShowsEmptyState(GroupSpec(Filtered(ns, f), day)) <==> Filtered(ns, f) == []
  {
    var r := Filtered(ns, f);
    GroupsPartitionByDay(r, day);
    if r != [] {
      assert day(r[0].createdAt) in GroupSpec(r, day).table;
    }
  }

  /** After "Mark all read", the unread view shows the empty state with its unread hint. */
  lemma {:induction false} MarkAllEmptiesUnreadView(ns: seq<Notification>, day: string -> string)
    ensures ShowsEmptyState(GroupSpec(Filtered(MarkAllAsRead(ns), UnreadOnly), day))
  {
    MarkAllClearsCount(ns);
    EmptyStateIffNothingFiltered(MarkAllAsRead(ns), UnreadOnly, day);
  }

  /** Different kinds always give different messages, and a like or comment names its content type. */
  lemma {:induction false} MessageDeterminesKind(a: Notification, b: Notification)
    requires Message(a) == Message(b)
    ensures a.kind == b.kind
    ensures a.kind.Like? || a.kind.Comment? ==> StringOf(a.contentType) == StringOf(b.contentType)
  {
    var s := Message(a);
    assert s[0] == Message(b)[0] && s[1] == Message(b)[1];
    if a.kind.Like? {
      assert s[11..] == StringOf(a.contentType);
      assert Message(b)[11..] == StringOf(b.contentType);
    } else if a.kind.Comment? {
      assert s[18..] == StringOf(a.contentType);
      assert Message(b)[18..] == StringOf(b.contentType);
    }
  }

  /** A like notification without a content type reads "liked your undefined". */
  lemma MissingContentTypePrintsUndefined(n: Notification)
    requires n.kind == Like && n.contentType.None?
    ensures Message(n) == "liked your undefined"
  {
  }
}
